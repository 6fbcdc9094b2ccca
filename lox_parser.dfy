/**
 * The recursive-descent parser as the object it is: a fixed token list and
 * a cursor `current` that `advance`, `match` and `consume` move forward.
 * A thrown `ParseError` is a `None` result; the report `error` hands to the
 * error sink is appended to a ghost log. Each method is proved to do what
 * the function of the same rule in `LoxGrammar` says.
 */
module LoxParser {
  import opened Tokens
  import opened Ast
  import opened Wrappers
  import LoxGrammar
  import LoxLexicon

  /** A report passed to the error sink: the token it is about and the message. */
  datatype ParseError = ParseError(token: Token, message: string)

  /** The candidates each binary level passes to `match`, in the order it tries them. */
  function OperatorList(k: nat): (kinds: seq<TokenType>)
    requires k < 4
    ensures forall t :: t in kinds <==> t in LoxGrammar.Operators(k)
  {
    if k == 0 then [BangEqual, EqualEqual]
    else if k == 1 then [Greater, GreaterEqual, Less, LessEqual]
    else if k == 2 then [Minus, Plus]
    else [Slash, Star]
  }

  /**
   * A parsing method that ended with the cursor at `cursor` and the error
   * log `log` returned what the rule's result `r` says, starting from the
   * log `log0`: on success the tree, with the cursor after it and no new
   * report; on failure `None`, after exactly one report, about the token
   * the rule failed at.
   */
  ghost predicate Outcome(toks: seq<Token>, r: LoxGrammar.Parsed, e: Option<Expr>, cursor: nat,
                          log: seq<ParseError>, log0: seq<ParseError>)
  {
    if r.Parsed? then e == Some(r.expr) && cursor == r.next && log == log0
    else e == None && r.at < |toks| && log == log0 + [ParseError(toks[r.at], r.message)]
  }

  /**
   * The scanner hands over what the parser is built on: a scan that does
   * not throw gives a list ending in `EOF` whose `NUMBER` and `STRING`
   * tokens carry literals of their kind, and whatever `parse` returns from
   * it is a well-shaped tree spelled by the tokens the list starts with.
   */
  lemma ScanFeedsParser(src: string)
    ensures LoxLexicon.Lex(src).Ok? ==>
      var toks := LoxLexicon.Lex(src).state.tokens;
      && LoxGrammar.Terminated(toks)
      && LiteralsOfKind(toks)
      && (LoxGrammar.Parse(toks).Some? ==>
            var e := LoxGrammar.Parse(toks).value;
            LoxGrammar.WellShaped(e) && LoxGrammar.ReadsFrom(toks, 0, LoxGrammar.Unparse(e)))
  {
    LoxLexicon.LexEndsWithEof(src);
    LoxLexicon.LexLiteralsOfKind(src);
    if LoxLexicon.Lex(src).Ok? {
      LoxGrammar.ParseSpellsTree(LoxLexicon.Lex(src).state.tokens);
    }
  }

  class Parser {
    const tokens: seq<Token>
    /** the next token to be inspected */
    var current: nat
    /** the reports passed to the error sink, oldest first */
    ghost var errors: seq<ParseError>

    /** The list ends with `EOF` and the cursor is on it or before it. */
    ghost predicate Valid()
      reads this
    {
      LoxGrammar.Terminated(tokens) && current < |tokens|
    }

    constructor (tokens: seq<Token>)
      requires LoxGrammar.Terminated(tokens)
      ensures this.tokens == tokens && current == 0 && errors == [] && Valid()
    {
      this.tokens := tokens;
      current := 0;
      errors := [];
    }

    /**
     * `parse`: the first expression, or `None` exactly when an error was
     * reported. Tokens after the expression are left where they are.
     */
    method Parse() returns (r: Option<Expr>)
      requires Valid()
      modifies this`current, this`errors
      ensures Valid()
      ensures Outcome(tokens, LoxGrammar.ParseExpression(tokens, old(current)), r, current, errors, old(errors))
      ensures r.None? <==> |errors| == |old(errors)| + 1
      ensures old(current) == 0 ==> r == LoxGrammar.Parse(tokens)
    {
      r := Expression();
    }

    /** `expression`: equality. */
    method Expression() returns (e: Option<Expr>)
      requires Valid()
      modifies this`current, this`errors
      ensures Valid()
      ensures Outcome(tokens, LoxGrammar.ParseExpression(tokens, old(current)), e, current, errors, old(errors))
      decreases |tokens| - current, 20
    {
      e := BinaryLevel(0);
    }

    /**
     * The binary levels `equality` (k = 0), `comparison` (1), `addition`
     * (2) and `multiplication` (3): an operand from the next level, then
     * the level's loop.
     */
    method BinaryLevel(k: nat) returns (e: Option<Expr>)
      requires Valid() && k < 4
      modifies this`current, this`errors
      ensures Valid()
      ensures Outcome(tokens, LoxGrammar.ParseLevel(tokens, old(current), k), e, current, errors, old(errors))
      decreases |tokens| - current, 18 - 2 * k
    {
      var first := Operand(k);
      if first.None? {
        return None;
      }
      e := LevelLoop(k, first.value);
    }

    /**
     * The loop of a binary level, with `left` built so far: while an
     * operator of the level matches, another operand is folded in on the
     * right of what was built so far.
     */
    method LevelLoop(k: nat, left: Expr) returns (e: Option<Expr>)
      requires Valid() && k < 4
      modifies this`current, this`errors
      ensures Valid()
      ensures Outcome(tokens, LoxGrammar.LevelTail(tokens, k, left, old(current)), e, current, errors, old(errors))
      decreases |tokens| - current, 16 - 2 * k
    {
      var expr := left;
      while true
        invariant Valid() && errors == old(errors)
        invariant LoxGrammar.LevelTail(tokens, k, expr, current) == LoxGrammar.LevelTail(tokens, k, left, old(current))
        decreases |tokens| - current
      {
        ghost var p := current;
        var matched := Match(OperatorList(k));
        if !matched {
          break;
        }
        var operator := Previous();
        var right := Operand(k);
        if right.None? {
          return None;
        }
        LoxGrammar.TailStep(tokens, k, expr, p, right.value, current);
        expr := Binary(expr, operator, right.value);
      }
      return Some(expr);
    }

    /**
     * An operand of level `k`: the next level up (`equality` calls
     * `comparison`, and so on), and `unary` below `multiplication`.
     */
    method Operand(k: nat) returns (e: Option<Expr>)
      requires Valid() && k < 4
      modifies this`current, this`errors
      ensures Valid()
      ensures Outcome(tokens, LoxGrammar.ParseOperand(tokens, old(current), k), e, current, errors, old(errors))
      decreases |tokens| - current, 17 - 2 * k
    {
      if k == 3 {
        e := Unary();
      } else {
        e := BinaryLevel(k + 1);
      }
    }

    /** `unary`: '!' or '-' followed by a unary, else a primary. */
    method Unary() returns (e: Option<Expr>)
      requires Valid()
      modifies this`current, this`errors
      ensures Valid()
      ensures Outcome(tokens, LoxGrammar.ParseUnary(tokens, old(current)), e, current, errors, old(errors))
      decreases |tokens| - current, 3
    {
      var matched := Match([Bang, Minus]);
      if matched {
        var operator := Previous();
        var right := Unary();
        if right.None? {
          return None;
        }
        return Some(Expr.Unary(operator, right.value));
      }
      e := Primary();
    }

    /**
     * `primary`: a literal, or '(' expression and then the token `consume`
     * demands, `RIGHT_BRACE`; anything else is reported at the cursor.
     */
    method Primary() returns (e: Option<Expr>)
      requires Valid()
      modifies this`current, this`errors
      ensures Valid()
      ensures Outcome(tokens, LoxGrammar.ParsePrimary(tokens, old(current)), e, current, errors, old(errors))
      decreases |tokens| - current, 2
    {
      ghost var p := current;
      LoxGrammar.PrimaryByKind(tokens, p);
      var matched := Match([Number, TokenType.String]);
      if matched {
        assert LoxGrammar.ParsePrimary(tokens, p) == LoxGrammar.Parsed(Literal(tokens[p].literal), p + 1);
        var t := Previous();
        return Some(Literal(t.literal));
      }
      e := KeywordOrGroup();
    }

    /**
     * The rest of `primary`, once the cursor is on neither a `NUMBER` nor a
     * `STRING`: `false`, `true`, `nil`, a group, or the report.
     */
    method KeywordOrGroup() returns (e: Option<Expr>)
      requires Valid() && !LoxGrammar.Matches(tokens, current, {Number, TokenType.String})
      modifies this`current, this`errors
      ensures Valid()
      ensures Outcome(tokens, LoxGrammar.ParsePrimary(tokens, old(current)), e, current, errors, old(errors))
      decreases |tokens| - current, 1
    {
      ghost var p := current;
      LoxGrammar.PrimaryByKind(tokens, p);
      var matched := Match([False]);
      if matched {
        assert LoxGrammar.ParsePrimary(tokens, p) == LoxGrammar.Parsed(Literal(Bool(false)), p + 1);
        return Some(Literal(Bool(false)));
      }
      matched := Match([True]);
      if matched {
        assert LoxGrammar.ParsePrimary(tokens, p) == LoxGrammar.Parsed(Literal(Bool(true)), p + 1);
        return Some(Literal(Bool(true)));
      }
      matched := Match([Nil]);
      if matched {
        assert LoxGrammar.ParsePrimary(tokens, p) == LoxGrammar.Parsed(Literal(Null), p + 1);
        return Some(Literal(Null));
      }
      matched := Match([LeftParen]);
      if matched {
        assert LoxGrammar.ParsePrimary(tokens, p) == LoxGrammar.ParseGroup(tokens, p + 1);
        e := Group();
        return;
      }
      assert LoxGrammar.ParsePrimary(tokens, p) == LoxGrammar.Failed(p, LoxGrammar.ExpectExpression);
      Error(Peek(), LoxGrammar.ExpectExpression);
      return None;
    }

    /**
     * The '(' case of `primary`, after the '(' has been consumed: an
     * expression, then the token `consume` demands, `RIGHT_BRACE`.
     */
    method Group() returns (e: Option<Expr>)
      requires Valid()
      modifies this`current, this`errors
      ensures Valid()
      ensures Outcome(tokens, LoxGrammar.ParseGroup(tokens, old(current)), e, current, errors, old(errors))
      decreases |tokens| - current, 21
    {
      var inner := Expression();
      if inner.None? {
        return None;
      }
      var closing := Consume(RightBrace, "Expect ')' after expression.");
      if closing.None? {
        return None;
      }
      return Some(Grouping(inner.value));
    }

    /** `consume`: the next token when it passes `check(kind)`, else a report at the cursor. */
    method Consume(kind: TokenType, message: string) returns (t: Option<Token>)
      requires Valid()
      modifies this`current, this`errors
      ensures Valid()
      ensures LoxGrammar.Check(tokens, old(current), kind) ==>
        t == Some(tokens[old(current)]) && current == old(current) + 1 && errors == old(errors)
      ensures !LoxGrammar.Check(tokens, old(current), kind) ==>
        t == None && current == old(current) && errors == old(errors) + [ParseError(tokens[old(current)], message)]
    {
      if Check(kind) {
        var next := Advance();
        return Some(next);
      }
      Error(Peek(), message);
      return None;
    }

    /** `error`: hands the report to the error sink; the caller then throws. */
    method Error(token: Token, message: string)
      modifies this`errors
      ensures errors == old(errors) + [ParseError(token, message)]
    {
      errors := errors + [ParseError(token, message)];
    }

    /**
     * `synchronize`: skips tokens up to and including a ';', or up to a
     * statement keyword or `EOF`. Nothing in this parser calls it.
     */
    method Synchronize()
      requires Valid()
      modifies this`current
      ensures Valid()
      ensures current == LoxGrammar.SynchronizeEnd(tokens, old(current))
    {
      while !IsAtEnd()
        invariant Valid() && old(current) <= current
        invariant LoxGrammar.SynchronizeEnd(tokens, current) == LoxGrammar.SynchronizeEnd(tokens, old(current))
        decreases |tokens| - current
      {
        match Peek().kind {
          case Semicolon =>
            var _ := Advance();
            return;
          case Class | Fun | Var | For | If | While | Print | Return =>
            return;
          case _ =>
        }
        var _ := Advance();
      }
    }

    /**
     * `match`: tries the candidates in order and consumes the token under
     * the cursor when one of them passes `check`.
     */
    method Match(kinds: seq<TokenType>) returns (matched: bool)
      requires Valid()
      modifies this`current
      ensures Valid()
      ensures matched <==> !LoxGrammar.AtEnd(tokens, old(current)) && tokens[old(current)].kind in kinds
      ensures current == old(current) + (if matched then 1 else 0)
    {
      for i := 0 to |kinds|
        invariant current == old(current)
        invariant forall j :: 0 <= j < i ==> !LoxGrammar.Check(tokens, current, kinds[j])
      {
        if Check(kinds[i]) {
          var _ := Advance();
          return true;
        }
      }
      return false;
    }

    /** `check`: false at `EOF`, whatever `kind` is. */
    function Check(kind: TokenType): (b: bool)
      reads this
      requires Valid()
      ensures b <==> tokens[current].kind == kind && kind != Eof
      ensures b ==> current + 1 < |tokens|
    {
      LoxGrammar.Check(tokens, current, kind)
    }

    /**
     * `advance`: moves the cursor unless it is on `EOF`, and returns the
     * token before the cursor, which exists unless the list is just `EOF`.
     */
    method Advance() returns (t: Token)
      requires Valid() && (current > 0 || !IsAtEnd())
      modifies this`current
      ensures Valid() && 0 < current
      ensures current == LoxGrammar.Advance(tokens, old(current)) && t == tokens[current - 1]
    {
      if !IsAtEnd() {
        current := current + 1;
      }
      t := Previous();
    }

    function IsAtEnd(): bool
      reads this
      requires Valid()
    {
      LoxGrammar.AtEnd(tokens, current)
    }

    function Peek(): Token
      reads this
      requires Valid()
    {
      tokens[current]
    }

    function Previous(): Token
      reads this
      requires Valid() && current > 0
    {
      tokens[current - 1]
    }
  }
}
