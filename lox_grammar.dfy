/**
 * What the recursive-descent expression parser computes, as functions of
 * the token list and the cursor: the cursor primitives, the precedence
 * cascade equality > comparison > addition > multiplication > unary >
 * primary, and `synchronize`. The lemmas say which trees come out: every
 * tree the parser builds respects precedence and left associativity, and
 * every such tree is parsed back from its own tokens.
 */
module LoxGrammar {
  import opened Tokens
  import opened Ast
  import opened Wrappers

  // ---------------------------------------------------------------------
  // Cursor primitives

  /** A token list as the scanner hands it over: it ends with `EOF`. */
  predicate Terminated(toks: seq<Token>) {
    |toks| > 0 && toks[|toks| - 1].kind == Eof
  }

  /** `isAtEnd`: the token under the cursor is `EOF`. */
  predicate AtEnd(toks: seq<Token>, p: nat)
    requires p < |toks|
  {
    toks[p].kind == Eof
  }

  /** `check(kind)`: never true at `EOF`, not even for `EOF` itself. */
  predicate Check(toks: seq<Token>, p: nat, kind: TokenType)
    requires p < |toks|
  {
    !AtEnd(toks, p) && toks[p].kind == kind
  }

  /**
   * `match(kinds...)`: some candidate passes `check`, that is, the token
   * under the cursor is not `EOF` and is one of `kinds`.
   */
  predicate Matches(toks: seq<Token>, p: nat, kinds: set<TokenType>)
    requires p < |toks|
  {
    !AtEnd(toks, p) && toks[p].kind in kinds
  }

  /** Where `advance` leaves the cursor: one further, except at `EOF`. */
  function Advance(toks: seq<Token>, p: nat): (q: nat)
    requires Terminated(toks) && p < |toks|
    ensures q < |toks|
  {
    if AtEnd(toks, p) then p else p + 1
  }

  /** A successful `match` never steps past the final `EOF`. */
  lemma MatchStaysInside(toks: seq<Token>, p: nat, kinds: set<TokenType>)
    requires Terminated(toks) && p < |toks| && Matches(toks, p, kinds)
    ensures p + 1 < |toks| && toks[p].kind in kinds && toks[p].kind != Eof
  {
  }

  // ---------------------------------------------------------------------
  // Precedence levels

  /**
   * The operators each binary level loops on: 0 equality, 1 comparison,
   * 2 addition, 3 multiplication, in the order `match` tries them.
   */
  function Operators(k: nat): set<TokenType>
    requires k < 4
  {
    if k == 0 then {BangEqual, EqualEqual}
    else if k == 1 then {Greater, GreaterEqual, Less, LessEqual}
    else if k == 2 then {Minus, Plus}
    else {Slash, Star}
  }

  /** The level whose loop takes `kind`, or 4 when no binary level does. */
  function OpLevel(kind: TokenType): (k: nat)
    ensures k <= 4
    ensures k < 4 ==> kind in Operators(k)
    ensures forall j :: 0 <= j < 4 && kind in Operators(j) ==> k == j
  {
    match kind
    case BangEqual => 0
    case EqualEqual => 0
    case Greater => 1
    case GreaterEqual => 1
    case Less => 1
    case LessEqual => 1
    case Minus => 2
    case Plus => 2
    case Slash => 3
    case Star => 3
    case _ => 4
  }

  /** How tightly `e` binds: the level of its operator; unary 4; literals and groups 5. */
  function Prec(e: Expr): nat {
    match e
    case Literal(_) => 5
    case Grouping(_) => 5
    case Unary(_, _) => 4
    case Binary(_, op, _) => OpLevel(op.kind)
  }

  /**
   * A tree the grammar can build: unary operators are '!' or '-' over a
   * unary operand; a binary operator of level k has a left operand of
   * level k or tighter (left associativity) and a right operand strictly
   * tighter (precedence).
   */
  predicate WellShaped(e: Expr) {
    match e
    case Literal(_) => true
    case Grouping(inner) => WellShaped(inner)
    case Unary(op, right) => op.kind in {Bang, Minus} && Prec(right) >= 4 && WellShaped(right)
    case Binary(left, op, right) =>
      var k := OpLevel(op.kind);
      k < 4 && Prec(left) >= k && Prec(right) >= k + 1 && WellShaped(left) && WellShaped(right)
  }

  function Size(e: Expr): nat {
    match e
    case Literal(_) => 1
    case Grouping(inner) => Size(inner) + 1
    case Unary(_, right) => Size(right) + 1
    case Binary(left, _, right) => Size(left) + Size(right) + 1
  }

  // ---------------------------------------------------------------------
  // The cascade

  /** What a parsing method did: returned `expr` with the cursor at `next`, or threw at `at`. */
  datatype Parsed = Parsed(expr: Expr, next: nat) | Failed(at: nat, message: string)

  /** The result stays on the list: a success consumed at least one token, a failure is at or after `p`. */
  predicate Within(toks: seq<Token>, p: nat, r: Parsed) {
    && (r.Parsed? ==> p < r.next < |toks|)
    && (r.Failed? ==> p <= r.at < |toks|)
  }

  /** A success built a well-shaped tree binding at least as tightly as level `k`. */
  predicate Shaped(r: Parsed, k: nat) {
    r.Parsed? ==> WellShaped(r.expr) && Prec(r.expr) >= k
  }

  /** `expression`: the loosest level, equality. */
  function ParseExpression(toks: seq<Token>, p: nat): (r: Parsed)
    requires Terminated(toks) && p < |toks|
    ensures Within(toks, p, r)
    decreases |toks| - p, 20
  {
    ParseLevel(toks, p, 0)
  }

  /** One binary level (`equality` ... `multiplication`): an operand, then the loop. */
  function ParseLevel(toks: seq<Token>, p: nat, k: nat): (r: Parsed)
    requires Terminated(toks) && p < |toks| && k < 4
    ensures Within(toks, p, r)
    decreases |toks| - p, 18 - 2 * k
  {
    match ParseOperand(toks, p, k)
    case Failed(at, message) => Failed(at, message)
    case Parsed(left, q) => LevelTail(toks, k, left, q)
  }

  /** An operand of level `k`: the next level, or `unary` below multiplication. */
  function ParseOperand(toks: seq<Token>, p: nat, k: nat): (r: Parsed)
    requires Terminated(toks) && p < |toks| && k < 4
    ensures Within(toks, p, r)
    decreases |toks| - p, 17 - 2 * k
  {
    if k == 3 then ParseUnary(toks, p) else ParseLevel(toks, p, k + 1)
  }

  /**
   * The loop of level `k` with `left` built so far and the cursor at `p`:
   * while an operator of the level matches, parse a right operand and fold
   * it in on the right.
   */
  function LevelTail(toks: seq<Token>, k: nat, left: Expr, p: nat): (r: Parsed)
    requires Terminated(toks) && p < |toks| && k < 4
    ensures (r.Parsed? ==> p <= r.next < |toks|) && (r.Failed? ==> p <= r.at < |toks|)
    decreases |toks| - p, 0
  {
    if !Matches(toks, p, Operators(k)) then Parsed(left, p)
    else
      match ParseOperand(toks, p + 1, k)
      case Failed(at, message) => Failed(at, message)
      case Parsed(right, q) => LevelTail(toks, k, Binary(left, toks[p], right), q)
  }

  /** `unary`: '!' or '-' applied to a unary, right-recursively, else a primary. */
  function ParseUnary(toks: seq<Token>, p: nat): (r: Parsed)
    requires Terminated(toks) && p < |toks|
    ensures Within(toks, p, r)
    decreases |toks| - p, 3
  {
    if Matches(toks, p, {Bang, Minus}) then
      match ParseUnary(toks, p + 1)
      case Failed(at, message) => Failed(at, message)
      case Parsed(right, q) => Parsed(Unary(toks[p], right), q)
    else ParsePrimary(toks, p)
  }

  /** The report of `primary` when no rule applies. */
  const ExpectExpression := "Expect expression"

  /**
   * `primary`: a literal token, or '(' followed by a group; anything else
   * fails with "Expect expression" at the cursor.
   */
  function ParsePrimary(toks: seq<Token>, p: nat): (r: Parsed)
    requires Terminated(toks) && p < |toks|
    ensures Within(toks, p, r)
    decreases |toks| - p, 2
  {
    if Matches(toks, p, {Number, String}) then Parsed(Literal(toks[p].literal), p + 1)
    else if Matches(toks, p, {False}) then Parsed(Literal(Bool(false)), p + 1)
    else if Matches(toks, p, {True}) then Parsed(Literal(Bool(true)), p + 1)
    else if Matches(toks, p, {Nil}) then Parsed(Literal(Null), p + 1)
    else if Matches(toks, p, {LeftParen}) then ParseGroup(toks, p + 1)
    else Failed(p, ExpectExpression)
  }

  /** `primary` by the kind of the token at the cursor, the tries taken in order. */
  lemma PrimaryByKind(toks: seq<Token>, p: nat)
    requires Terminated(toks) && p < |toks|
    ensures var k := toks[p].kind;
      ParsePrimary(toks, p)
        == if k == Number || k == String then Parsed(Literal(toks[p].literal), p + 1)
           else if k == False then Parsed(Literal(Bool(false)), p + 1)
           else if k == True then Parsed(Literal(Bool(true)), p + 1)
           else if k == Nil then Parsed(Literal(Null), p + 1)
           else if k == LeftParen then ParseGroup(toks, p + 1)
           else Failed(p, ExpectExpression)
  {
  }

  /**
   * The '(' case of `primary`, from the token after the '(': an expression
   * followed by the closing token, which as written is `RIGHT_BRACE`.
   */
  function ParseGroup(toks: seq<Token>, p: nat): (r: Parsed)
    requires Terminated(toks) && p < |toks|
    ensures (r.Parsed? ==> p < r.next < |toks|) && (r.Failed? ==> p <= r.at < |toks|)
    decreases |toks| - p, 21
  {
    match ParseExpression(toks, p)
    case Failed(at, message) => Failed(at, message)
    case Parsed(inner, q) =>
      if Check(toks, q, RightBrace) then Parsed(Grouping(inner), q + 1)
      else Failed(q, "Expect ')' after expression.")
  }

  /**
   * `primary` fails at the cursor itself exactly when no literal and no '('
   * is there; a group fails further on.
   */
  lemma PrimaryFailsAtCursor(toks: seq<Token>, p: nat)
    requires Terminated(toks) && p < |toks|
    ensures var r := ParsePrimary(toks, p);
      r.Failed? && r.at == p <==> !Matches(toks, p, {Number, String, False, True, Nil, LeftParen})
  {
    if Matches(toks, p, {LeftParen}) {
      assert ParsePrimary(toks, p) == ParseGroup(toks, p + 1);
    }
  }

  /** `parse`: the first expression, or `null` when a `ParseError` was thrown. */
  function Parse(toks: seq<Token>): Option<Expr>
    requires Terminated(toks)
  {
    match ParseExpression(toks, 0)
    case Parsed(e, _) => Some(e)
    case Failed(_, _) => None
  }

  // ---------------------------------------------------------------------
  // Error recovery

  /** The statement keywords `synchronize` stops in front of. */
  const StatementStarts: set<TokenType> := {Class, Fun, Var, For, If, While, Print, Return}

  /** A token `synchronize` steps over. */
  predicate Skipped(t: Token) {
    t.kind != Eof && t.kind != Semicolon && t.kind !in StatementStarts
  }

  /**
   * Where `synchronize` leaves the cursor: just after the first ';' (the
   * `SEMICOLON` case falls through to `return` after its `advance`), or in
   * front of the first statement keyword or of `EOF`, whichever comes first.
   */
  function SynchronizeEnd(toks: seq<Token>, p: nat): (q: nat)
    requires Terminated(toks) && p < |toks|
    ensures p <= q < |toks|
    decreases |toks| - p
  {
    if AtEnd(toks, p) then p
    else if toks[p].kind == Semicolon then Advance(toks, p)
    else if toks[p].kind in StatementStarts then p
    else SynchronizeEnd(toks, p + 1)
  }

  /**
   * `synchronize` stops at the first place it may: every token it passes
   * over is neither ';' nor a statement keyword nor `EOF`, and it stops
   * just after a ';', in front of a statement keyword, or on `EOF`.
   */
  lemma {:induction false} SynchronizeStops(toks: seq<Token>, p: nat)
    requires Terminated(toks) && p < |toks|
    ensures var q := SynchronizeEnd(toks, p);
      && ((p < q && toks[q - 1].kind == Semicolon) || AtEnd(toks, q) || toks[q].kind in StatementStarts)
      && (forall j :: p <= j < q - 1 ==> Skipped(toks[j]))
      && (p < q ==> Skipped(toks[q - 1]) || toks[q - 1].kind == Semicolon)
    decreases |toks| - p
  {
    if !AtEnd(toks, p) && toks[p].kind != Semicolon && toks[p].kind !in StatementStarts {
      SynchronizeStops(toks, p + 1);
    }
  }

  // ---------------------------------------------------------------------
  // Every tree the parser builds is well shaped

  lemma {:induction false} LevelShaped(toks: seq<Token>, p: nat, k: nat)
    requires Terminated(toks) && p < |toks| && k < 4
    ensures Shaped(ParseLevel(toks, p, k), k)
    decreases |toks| - p, 18 - 2 * k
  {
    OperandShaped(toks, p, k);
    var r := ParseOperand(toks, p, k);
    if r.Parsed? {
      TailShaped(toks, k, r.expr, r.next);
    }
  }

  lemma {:induction false} OperandShaped(toks: seq<Token>, p: nat, k: nat)
    requires Terminated(toks) && p < |toks| && k < 4
    ensures Shaped(ParseOperand(toks, p, k), k + 1)
    decreases |toks| - p, 17 - 2 * k
  {
    if k == 3 {
      UnaryShaped(toks, p);
    } else {
      LevelShaped(toks, p, k + 1);
    }
  }

  /** The loop of level `k` folds to the left: each new operand binds more tightly than `k`. */
  lemma {:induction false} TailShaped(toks: seq<Token>, k: nat, left: Expr, p: nat)
    requires Terminated(toks) && p < |toks| && k < 4
    requires WellShaped(left) && Prec(left) >= k
    ensures Shaped(LevelTail(toks, k, left, p), k)
    decreases |toks| - p, 0
  {
    if Matches(toks, p, Operators(k)) {
      OperandShaped(toks, p + 1, k);
      var r := ParseOperand(toks, p + 1, k);
      if r.Parsed? {
        TailShaped(toks, k, Binary(left, toks[p], r.expr), r.next);
      }
    }
  }

  /** `unary` nests to the right: '!' or '-' over another unary. */
  lemma {:induction false} UnaryShaped(toks: seq<Token>, p: nat)
    requires Terminated(toks) && p < |toks|
    ensures Shaped(ParseUnary(toks, p), 4)
    decreases |toks| - p, 3
  {
    if Matches(toks, p, {Bang, Minus}) {
      UnaryShaped(toks, p + 1);
    } else {
      PrimaryShaped(toks, p);
    }
  }

  lemma {:induction false} PrimaryShaped(toks: seq<Token>, p: nat)
    requires Terminated(toks) && p < |toks|
    ensures Shaped(ParsePrimary(toks, p), 5)
    decreases |toks| - p, 2
  {
    if Matches(toks, p, {LeftParen}) {
      LevelShaped(toks, p + 1, 0);
      assert Shaped(ParseGroup(toks, p + 1), 5);
    }
  }

  /**
   * Whatever `parse` returns respects precedence and left associativity:
   * every operand of a binary operator of level k binds at least as
   * tightly (left) or strictly more tightly (right) than k.
   */
  lemma ParseShaped(toks: seq<Token>)
    requires Terminated(toks)
    ensures Parse(toks).Some? ==> WellShaped(Parse(toks).value)
  {
    LevelShaped(toks, 0, 0);
  }

  // ---------------------------------------------------------------------
  // Every well-shaped tree is parsed back from its own tokens

  /** The token a literal value is written as. */
  function LiteralToken(v: Value): Token {
    match v
    case Num(digits) => Token(Number, digits, v, 1)
    case Str(text) => Token(String, "\"" + text + "\"", v, 1)
    case Bool(b) => if b then Token(True, "true", Null, 1) else Token(False, "false", Null, 1)
    case Null => Token(Nil, "nil", Null, 1)
  }

  /**
   * The tokens of a tree, operators in place, and a group closed by the
   * token `primary` demands, `RIGHT_BRACE`.
   */
  function Unparse(e: Expr): seq<Token> {
    match e
    case Literal(v) => [LiteralToken(v)]
    case Grouping(inner) => [Token(LeftParen, "(", Null, 1)] + Unparse(inner) + [Token(RightBrace, "}", Null, 1)]
    case Unary(op, right) => [op] + Unparse(right)
    case Binary(left, op, right) => Unparse(left) + [op] + Unparse(right)
  }

  /** `xs` sits in `toks` from position `p` on. */
  predicate Placed(toks: seq<Token>, p: nat, xs: seq<Token>) {
    p + |xs| <= |toks| && toks[p..p + |xs|] == xs
  }

  lemma PlacedSplit(toks: seq<Token>, p: nat, xs: seq<Token>, ys: seq<Token>)
    requires Placed(toks, p, xs + ys)
    ensures Placed(toks, p, xs) && Placed(toks, p + |xs|, ys)
  {
    assert toks[p..p + |xs|] == (xs + ys)[..|xs|];
    assert toks[p + |xs|..p + |xs| + |ys|] == (xs + ys)[|xs|..];
  }

  /** A token that ends every binary loop of level `k` and looser. */
  predicate Stops(t: Token, k: nat) {
    !(k <= OpLevel(t.kind) < 4)
  }

  /** The leftmost operand of the chain of level-`k` operators at the top of `e`. */
  function Head(e: Expr, k: nat): (h: Expr)
    ensures Size(h) <= Size(e)
  {
    if e.Binary? && OpLevel(e.op.kind) == k then Head(e.left, k) else e
  }

  /** The tokens of that chain after its leftmost operand: operator, operand, operator, ... */
  function TailTokens(e: Expr, k: nat): seq<Token> {
    if e.Binary? && OpLevel(e.op.kind) == k then TailTokens(e.left, k) + [e.op] + Unparse(e.right) else []
  }

  /**
   * A tree is its head followed by the rest of its chain; the head binds
   * more tightly than `k`, and the rest starts with an operator of level `k`.
   */
  lemma {:induction false} HeadSplit(e: Expr, k: nat)
    requires k < 4 && WellShaped(e) && Prec(e) >= k
    ensures Unparse(e) == Unparse(Head(e, k)) + TailTokens(e, k)
    ensures WellShaped(Head(e, k)) && Prec(Head(e, k)) > k
    ensures TailTokens(e, k) != [] ==> OpLevel(TailTokens(e, k)[0].kind) == k
  {
    if e.Binary? && OpLevel(e.op.kind) == k {
      HeadSplit(e.left, k);
      if TailTokens(e.left, k) == [] {
        assert TailTokens(e, k)[0] == e.op;
      } else {
        assert TailTokens(e, k)[0] == TailTokens(e.left, k)[0];
      }
    }
  }

  /** One pass of the loop of level `k`: an operator matched and a right operand was read. */
  lemma TailStep(toks: seq<Token>, k: nat, left: Expr, p: nat, right: Expr, q: nat)
    requires Terminated(toks) && p < |toks| && k < 4
    requires Matches(toks, p, Operators(k)) && ParseOperand(toks, p + 1, k) == Parsed(right, q)
    ensures LevelTail(toks, k, left, p) == LevelTail(toks, k, Binary(left, toks[p], right), q)
  {
  }

  /** The loop of level `k` ends at a token that ends every loop of level `k` and looser. */
  lemma TailStop(toks: seq<Token>, k: nat, left: Expr, p: nat)
    requires Terminated(toks) && p < |toks| && k < 4 && Stops(toks[p], k)
    ensures LevelTail(toks, k, left, p) == Parsed(left, p)
  {
  }

  /**
   * Where the pieces of a level-`k` chain `left op right` sit, given where
   * the whole chain sits, and how tightly each side binds.
   */
  lemma ChainPlaced(toks: seq<Token>, q: nat, e: Expr, k: nat, q1: nat, end: nat)
    requires e.Binary? && OpLevel(e.op.kind) == k && WellShaped(e)
    requires Placed(toks, q, TailTokens(e, k)) && end == q + |TailTokens(e, k)|
    requires q1 == q + |TailTokens(e.left, k)|
    ensures Placed(toks, q, TailTokens(e.left, k)) && q1 < |toks| && toks[q1] == e.op && Stops(toks[q1], k + 1)
    ensures Placed(toks, q1 + 1, Unparse(e.right)) && end == q1 + 1 + |Unparse(e.right)|
    ensures WellShaped(e.left) && Prec(e.left) >= k && WellShaped(e.right) && Prec(e.right) > k
  {
    var ls := TailTokens(e.left, k);
    assert TailTokens(e, k) == ls + [e.op] + Unparse(e.right);
    PlacedSplit(toks, q, ls + [e.op], Unparse(e.right));
    PlacedSplit(toks, q, ls, [e.op]);
  }

  /**
   * The last pass of the loop over a chain `left op right`: once the loop
   * has built `left`, it matches `op`, reads `right` and builds the chain.
   */
  lemma ChainStep(toks: seq<Token>, k: nat, e: Expr, q: nat, q1: nat, end: nat)
    requires Terminated(toks) && k < 4 && e.Binary? && OpLevel(e.op.kind) == k
    requires q <= q1 < |toks| && toks[q1] == e.op
    requires LevelTail(toks, k, Head(e.left, k), q) == LevelTail(toks, k, e.left, q1)
    requires ParseOperand(toks, q1 + 1, k) == Parsed(e.right, end)
    ensures LevelTail(toks, k, Head(e, k), q) == LevelTail(toks, k, e, end)
  {
    TailStep(toks, k, e.left, q1, e.right, end);
  }

  /**
   * The loop of level `k` started after the head of the chain reads the
   * rest of the chain, up to `end`, and builds `e`, left-associated.
   */
  lemma {:induction false} TailRoundTrip(toks: seq<Token>, q: nat, e: Expr, k: nat, end: nat)
    requires Terminated(toks) && k < 4 && WellShaped(e) && Prec(e) >= k
    requires Placed(toks, q, TailTokens(e, k)) && end == q + |TailTokens(e, k)| && end < |toks|
    requires Stops(toks[end], k + 1)
    ensures LevelTail(toks, k, Head(e, k), q) == LevelTail(toks, k, e, end)
    decreases Size(e), 1
  {
    if e.Binary? && OpLevel(e.op.kind) == k {
      var q1 := q + |TailTokens(e.left, k)|;
      ChainPlaced(toks, q, e, k, q1, end);
      TailRoundTrip(toks, q, e.left, k, q1);
      ChainRest(toks, k, e, q, q1, end);
    } else {
      assert Head(e, k) == e && TailTokens(e, k) == [];
    }
  }

  /**
   * The step of `TailRoundTrip` on a chain `left op right` whose operator
   * sits at `q1`: once the loop has built `left`, it matches the operator,
   * reads `right` whole and builds the chain.
   */
  lemma {:induction false} ChainRest(toks: seq<Token>, k: nat, e: Expr, q: nat, q1: nat, end: nat)
    requires Terminated(toks) && k < 4 && e.Binary? && OpLevel(e.op.kind) == k
    requires WellShaped(e.right) && Prec(e.right) > k
    requires q <= q1 < |toks| && toks[q1] == e.op
    requires Placed(toks, q1 + 1, Unparse(e.right)) && end == q1 + 1 + |Unparse(e.right)| && end < |toks|
    requires Stops(toks[end], k + 1)
    requires LevelTail(toks, k, Head(e.left, k), q) == LevelTail(toks, k, e.left, q1)
    ensures LevelTail(toks, k, Head(e, k), q) == LevelTail(toks, k, e, end)
    decreases Size(e), 0
  {
    OperandRoundTrip(toks, q1 + 1, e.right, k, end);
    ChainStep(toks, k, e, q, q1, end);
  }

  /** An operand of level `k` that is a well-shaped tree tighter than `k` is read whole, up to `end`. */
  lemma {:induction false} OperandRoundTrip(toks: seq<Token>, p: nat, e: Expr, k: nat, end: nat)
    requires Terminated(toks) && k < 4 && WellShaped(e) && Prec(e) > k
    requires Placed(toks, p, Unparse(e)) && end == p + |Unparse(e)| && end < |toks|
    requires Stops(toks[end], k + 1)
    ensures ParseOperand(toks, p, k) == Parsed(e, end)
    decreases Size(e), 13 - 3 * k
  {
    if k == 3 {
      UnaryRoundTrip(toks, p, e, end);
    } else {
      LevelRoundTrip(toks, p, e, k + 1, end);
    }
  }

  /**
   * Where the head of a chain of level `k` and the rest of the chain sit,
   * given where the whole tree sits, and why the operand read of the head
   * stops where the rest begins.
   */
  lemma LevelPieces(toks: seq<Token>, p: nat, e: Expr, k: nat, q: nat, end: nat)
    requires k < 4 && WellShaped(e) && Prec(e) >= k
    requires Placed(toks, p, Unparse(e)) && end == p + |Unparse(e)| && end < |toks|
    requires Stops(toks[end], k)
    requires q == p + |Unparse(Head(e, k))|
    ensures WellShaped(Head(e, k)) && Prec(Head(e, k)) > k
    ensures Placed(toks, p, Unparse(Head(e, k))) && q < |toks| && Stops(toks[q], k + 1)
    ensures Placed(toks, q, TailTokens(e, k)) && end == q + |TailTokens(e, k)|
  {
    var h, ts := Head(e, k), TailTokens(e, k);
    HeadSplit(e, k);
    PlacedSplit(toks, p, Unparse(h), ts);
    if ts != [] {
      assert toks[q] == ts[0];
    }
  }

  /** Level `k` reads a well-shaped tree binding at least as tightly, up to a token that stops it. */
  lemma {:induction false} LevelRoundTrip(toks: seq<Token>, p: nat, e: Expr, k: nat, end: nat)
    requires Terminated(toks) && k < 4 && WellShaped(e) && Prec(e) >= k
    requires Placed(toks, p, Unparse(e)) && end == p + |Unparse(e)| && end < |toks|
    requires Stops(toks[end], k)
    ensures ParseLevel(toks, p, k) == Parsed(e, end)
    decreases Size(e), 15 - 3 * k
  {
    var q := p + |Unparse(Head(e, k))|;
    LevelPieces(toks, p, e, k, q, end);
    LevelRest(toks, p, e, k, q, end);
  }

  /** `LevelRoundTrip` once the head of the chain and the rest are placed. */
  lemma {:induction false} LevelRest(toks: seq<Token>, p: nat, e: Expr, k: nat, q: nat, end: nat)
    requires Terminated(toks) && k < 4 && WellShaped(e) && Prec(e) >= k
    requires WellShaped(Head(e, k)) && Prec(Head(e, k)) > k
    requires Placed(toks, p, Unparse(Head(e, k))) && q == p + |Unparse(Head(e, k))| && q < |toks|
    requires Stops(toks[q], k + 1)
    requires Placed(toks, q, TailTokens(e, k)) && end == q + |TailTokens(e, k)| && end < |toks|
    requires Stops(toks[end], k)
    ensures ParseLevel(toks, p, k) == Parsed(e, end)
    decreases Size(e), 14 - 3 * k
  {
    OperandRoundTrip(toks, p, Head(e, k), k, q);
    TailRoundTrip(toks, q, e, k, end);
    LevelFinish(toks, p, k, e, Head(e, k), q, end);
  }

  /**
   * Level `k` reads `e` once its operand reads the head `h` up to `q` and
   * its loop, from there, builds `e` up to a token that stops it.
   */
  lemma LevelFinish(toks: seq<Token>, p: nat, k: nat, e: Expr, h: Expr, q: nat, end: nat)
    requires Terminated(toks) && p < |toks| && k < 4 && q <= end < |toks| && Stops(toks[end], k)
    requires ParseOperand(toks, p, k) == Parsed(h, q)
    requires LevelTail(toks, k, h, q) == LevelTail(toks, k, e, end)
    ensures ParseLevel(toks, p, k) == Parsed(e, end)
  {
    TailStop(toks, k, e, end);
  }

  /** `unary` reads a well-shaped unary, literal or group. */
  lemma {:induction false} UnaryRoundTrip(toks: seq<Token>, p: nat, e: Expr, end: nat)
    requires Terminated(toks) && WellShaped(e) && Prec(e) >= 4
    requires Placed(toks, p, Unparse(e)) && end == p + |Unparse(e)| && end < |toks|
    ensures ParseUnary(toks, p) == Parsed(e, end)
    decreases Size(e), 3
  {
    assert toks[p] == Unparse(e)[0];
    if e.Unary? {
      PlacedSplit(toks, p, [e.op], Unparse(e.right));
      UnaryRoundTrip(toks, p + 1, e.right, end);
    } else {
      PrimaryRoundTrip(toks, p, e, end);
    }
  }

  /** A group's opening token, inner tokens and closing `RIGHT_BRACE`, where the group sits. */
  lemma GroupPlaced(toks: seq<Token>, p: nat, inner: Expr, end: nat)
    requires Placed(toks, p, Unparse(Grouping(inner))) && end == p + |Unparse(Grouping(inner))|
    ensures toks[p].kind == LeftParen && Placed(toks, p + 1, Unparse(inner))
    ensures end - 1 == p + 1 + |Unparse(inner)| && toks[end - 1].kind == RightBrace
  {
    var open, close := Token(LeftParen, "(", Null, 1), Token(RightBrace, "}", Null, 1);
    PlacedSplit(toks, p, [open] + Unparse(inner), [close]);
    PlacedSplit(toks, p, [open], Unparse(inner));
  }

  /** `primary` reads a literal token as the literal it carries. */
  lemma LiteralRead(toks: seq<Token>, p: nat, v: Value)
    requires Terminated(toks) && p + 1 < |toks| && toks[p] == LiteralToken(v)
    ensures ParsePrimary(toks, p) == Parsed(Literal(v), p + 1)
  {
  }

  /** `primary` reads a group once the expression after '(' is read up to a `RIGHT_BRACE`. */
  lemma GroupRead(toks: seq<Token>, p: nat, inner: Expr, q: nat)
    requires Terminated(toks) && p < q < |toks| - 1 && toks[p].kind == LeftParen
    requires ParseLevel(toks, p + 1, 0) == Parsed(inner, q) && toks[q].kind == RightBrace
    ensures ParsePrimary(toks, p) == Parsed(Grouping(inner), q + 1)
  {
    assert ParseGroup(toks, p + 1) == Parsed(Grouping(inner), q + 1);
  }

  /** `primary` reads a literal or a group closed by `RIGHT_BRACE`. */
  lemma {:induction false} PrimaryRoundTrip(toks: seq<Token>, p: nat, e: Expr, end: nat)
    requires Terminated(toks) && WellShaped(e) && Prec(e) == 5
    requires Placed(toks, p, Unparse(e)) && end == p + |Unparse(e)| && end < |toks|
    ensures ParsePrimary(toks, p) == Parsed(e, end)
    decreases Size(e), 2
  {
    if e.Grouping? {
      GroupPlaced(toks, p, e.expression, end);
      LevelRoundTrip(toks, p + 1, e.expression, 0, end - 1);
      GroupRead(toks, p, e.expression, end - 1);
    } else {
      assert toks[p] == Unparse(e)[0];
      LiteralRead(toks, p, e.value);
    }
  }

  /**
   * `parse` returns any well-shaped tree from its tokens, whatever follows
   * them as long as it does not continue a binary operator chain: the
   * parser does not demand `EOF` after the expression.
   */
  lemma ParseRoundTrip(e: Expr, rest: seq<Token>)
    requires WellShaped(e) && Terminated(Unparse(e) + rest) && |rest| > 0 && Stops(rest[0], 0)
    ensures ParseExpression(Unparse(e) + rest, 0) == Parsed(e, |Unparse(e)|)
    ensures Parse(Unparse(e) + rest) == Some(e)
  {
    var toks := Unparse(e) + rest;
    assert toks[..|Unparse(e)|] == Unparse(e);
    assert toks[|Unparse(e)|] == rest[0];
    LevelRoundTrip(toks, 0, e, 0, |Unparse(e)|);
  }

  // ---------------------------------------------------------------------
  // What the parser reads of a token

  /**
   * `t` is read as `u` is: a `NUMBER` or `STRING` by its kind and literal;
   * `TRUE`, `FALSE`, `NIL`, '(' and '}' by their kind alone; any other
   * token, which may end up in the tree as an operator, only when it is
   * `u` itself. Lines and the lexemes of the first kinds play no part.
   */
  predicate ReadsAs(t: Token, u: Token) {
    if u.kind in {Number, String} then t.kind == u.kind && t.literal == u.literal
    else if u.kind in {True, False, Nil, LeftParen, RightBrace} then t.kind == u.kind
    else t == u
  }

  /** Two token lists of one length, read alike position by position. */
  predicate ReadAlike(a: seq<Token>, b: seq<Token>) {
    |a| == |b| && forall j :: 0 <= j < |a| ==> ReadsAs(a[j], b[j])
  }

  lemma {:induction false} LevelReadsAlike(a: seq<Token>, b: seq<Token>, p: nat, k: nat)
    requires Terminated(a) && Terminated(b) && ReadAlike(a, b) && p < |a| && k < 4
    ensures ParseLevel(a, p, k) == ParseLevel(b, p, k)
    decreases |a| - p, 18 - 2 * k
  {
    OperandReadsAlike(a, b, p, k);
    var r := ParseOperand(a, p, k);
    if r.Parsed? {
      TailReadsAlike(a, b, k, r.expr, r.next);
    }
  }

  lemma {:induction false} OperandReadsAlike(a: seq<Token>, b: seq<Token>, p: nat, k: nat)
    requires Terminated(a) && Terminated(b) && ReadAlike(a, b) && p < |a| && k < 4
    ensures ParseOperand(a, p, k) == ParseOperand(b, p, k)
    decreases |a| - p, 17 - 2 * k
  {
    if k == 3 {
      UnaryReadsAlike(a, b, p);
    } else {
      LevelReadsAlike(a, b, p, k + 1);
    }
  }

  /** An operator token is read only as itself, so both loops fold in the same token. */
  lemma {:induction false} TailReadsAlike(a: seq<Token>, b: seq<Token>, k: nat, left: Expr, p: nat)
    requires Terminated(a) && Terminated(b) && ReadAlike(a, b) && p < |a| && k < 4
    ensures LevelTail(a, k, left, p) == LevelTail(b, k, left, p)
    decreases |a| - p, 0
  {
    assert ReadsAs(a[p], b[p]);
    if Matches(a, p, Operators(k)) {
      assert a[p] == b[p];
      OperandReadsAlike(a, b, p + 1, k);
      var r := ParseOperand(a, p + 1, k);
      if r.Parsed? {
        TailReadsAlike(a, b, k, Binary(left, a[p], r.expr), r.next);
      }
    }
  }

  lemma {:induction false} UnaryReadsAlike(a: seq<Token>, b: seq<Token>, p: nat)
    requires Terminated(a) && Terminated(b) && ReadAlike(a, b) && p < |a|
    ensures ParseUnary(a, p) == ParseUnary(b, p)
    decreases |a| - p, 3
  {
    assert ReadsAs(a[p], b[p]);
    if Matches(a, p, {Bang, Minus}) {
      assert a[p] == b[p];
      UnaryReadsAlike(a, b, p + 1);
    } else {
      PrimaryReadsAlike(a, b, p);
    }
  }

  lemma {:induction false} PrimaryReadsAlike(a: seq<Token>, b: seq<Token>, p: nat)
    requires Terminated(a) && Terminated(b) && ReadAlike(a, b) && p < |a|
    ensures ParsePrimary(a, p) == ParsePrimary(b, p)
    decreases |a| - p, 2
  {
    assert ReadsAs(a[p], b[p]);
    if Matches(a, p, {LeftParen}) {
      GroupReadsAlike(a, b, p + 1);
    }
  }

  lemma {:induction false} GroupReadsAlike(a: seq<Token>, b: seq<Token>, p: nat)
    requires Terminated(a) && Terminated(b) && ReadAlike(a, b) && p < |a|
    ensures ParseGroup(a, p) == ParseGroup(b, p)
    decreases |a| - p, 21
  {
    LevelReadsAlike(a, b, p, 0);
    var r := ParseLevel(a, p, 0);
    if r.Parsed? {
      assert ReadsAs(a[r.next], b[r.next]);
    }
  }

  /**
   * The round trip for any token list that reads as the tokens of `e`,
   * whatever their lines and the lexemes of its literals: a `NUMBER` or
   * `STRING` with the literal's value, `TRUE`, `FALSE`, `NIL`, '(' and '}'
   * by kind, the tree's own operator tokens, then a token that continues
   * no binary chain.
   */
  lemma ParseReadsTree(e: Expr, toks: seq<Token>)
    requires WellShaped(e) && Terminated(toks) && |Unparse(e)| < |toks|
    requires forall j :: 0 <= j < |Unparse(e)| ==> ReadsAs(toks[j], Unparse(e)[j])
    requires Stops(toks[|Unparse(e)|], 0)
    ensures ParseExpression(toks, 0) == Parsed(e, |Unparse(e)|)
    ensures Parse(toks) == Some(e)
  {
    var n := |Unparse(e)|;
    CanonReadsAlike(e, toks);
    assert ParseExpression(Unparse(e) + toks[n..], 0) == Parsed(e, n) by {
      assert toks[n..][0] == toks[n];
      ParseRoundTrip(e, toks[n..]);
    }
    LevelReadsAlike(toks, Unparse(e) + toks[n..], 0, 0);
  }

  /** Such a list reads alike with the tree's own tokens followed by the rest of the list. */
  lemma CanonReadsAlike(e: Expr, toks: seq<Token>)
    requires Terminated(toks) && |Unparse(e)| < |toks|
    requires forall j :: 0 <= j < |Unparse(e)| ==> ReadsAs(toks[j], Unparse(e)[j])
    ensures var canon := Unparse(e) + toks[|Unparse(e)|..];
      Terminated(canon) && ReadAlike(toks, canon)
  {
    var n := |Unparse(e)|;
    var canon := Unparse(e) + toks[n..];
    forall j | 0 <= j < |toks|
      ensures ReadsAs(toks[j], canon[j])
    {
      if n <= j {
        assert canon[j] == toks[j];
      }
    }
    assert canon[|canon| - 1] == toks[|toks| - 1];
  }

  // ---------------------------------------------------------------------
  // Every tree the parser builds is spelled by the tokens it read

  /** From position `p` on, `toks` reads as `xs`. */
  predicate ReadsFrom(toks: seq<Token>, p: nat, xs: seq<Token>) {
    p + |xs| <= |toks| && forall j :: 0 <= j < |xs| ==> ReadsAs(toks[p + j], xs[j])
  }

  lemma ReadsFromJoin(toks: seq<Token>, p: nat, xs: seq<Token>, ys: seq<Token>)
    requires ReadsFrom(toks, p, xs) && ReadsFrom(toks, p + |xs|, ys)
    ensures ReadsFrom(toks, p, xs + ys)
  {
    forall j | 0 <= j < |xs + ys|
      ensures ReadsAs(toks[p + j], (xs + ys)[j])
    {
      if |xs| <= j {
        assert toks[p + j] == toks[(p + |xs|) + (j - |xs|)];
      }
    }
  }

  /** A left operand, the operator token after it and a right operand after that read as their binary tree. */
  lemma ReadsBinary(toks: seq<Token>, s: nat, left: Expr, right: Expr)
    requires ReadsFrom(toks, s, Unparse(left)) && s + |Unparse(left)| < |toks|
    requires ReadsFrom(toks, s + |Unparse(left)| + 1, Unparse(right))
    ensures ReadsFrom(toks, s, Unparse(Binary(left, toks[s + |Unparse(left)|], right)))
  {
    var op := toks[s + |Unparse(left)|];
    assert ReadsFrom(toks, s + |Unparse(left)|, [op]);
    ReadsFromJoin(toks, s, Unparse(left), [op]);
    ReadsFromJoin(toks, s, Unparse(left) + [op], Unparse(right));
  }

  /** A '(' before `p`, an inner tree from `p` and a `RIGHT_BRACE` after it read as the group. */
  lemma ReadsGroup(toks: seq<Token>, p: nat, inner: Expr)
    requires 0 < p && p + |Unparse(inner)| < |toks| && toks[p - 1].kind == LeftParen
    requires ReadsFrom(toks, p, Unparse(inner)) && toks[p + |Unparse(inner)|].kind == RightBrace
    ensures ReadsFrom(toks, p - 1, Unparse(Grouping(inner)))
  {
    var xs, n := Unparse(inner), |Unparse(inner)|;
    var u := Unparse(Grouping(inner));
    assert |u| == n + 2 && u[0].kind == LeftParen && u[n + 1].kind == RightBrace;
    forall j | 0 <= j < |u|
      ensures ReadsAs(toks[p - 1 + j], u[j])
    {
      if 0 < j <= n {
        assert u[j] == xs[j - 1] && toks[p - 1 + j] == toks[p + (j - 1)];
      }
    }
  }

  /** A success read a tree whose tokens are exactly those from `p` up to where it stopped. */
  predicate Spelled(toks: seq<Token>, p: nat, r: Parsed) {
    r.Parsed? ==> r.next == p + |Unparse(r.expr)| && ReadsFrom(toks, p, Unparse(r.expr))
  }

  /** A binary level reads a tree spelled by its tokens and stops at a token that ends the level. */
  lemma {:induction false} LevelSpelled(toks: seq<Token>, p: nat, k: nat)
    requires Terminated(toks) && LiteralsOfKind(toks) && p < |toks| && k < 4
    ensures var r := ParseLevel(toks, p, k);
      Spelled(toks, p, r) && (r.Parsed? ==> Stops(toks[r.next], k))
    decreases |toks| - p, 18 - 2 * k
  {
    OperandSpelled(toks, p, k);
    var r := ParseOperand(toks, p, k);
    if r.Parsed? {
      TailSpelled(toks, k, r.expr, p, r.next);
    }
  }

  lemma {:induction false} OperandSpelled(toks: seq<Token>, p: nat, k: nat)
    requires Terminated(toks) && LiteralsOfKind(toks) && p < |toks| && k < 4
    ensures var r := ParseOperand(toks, p, k);
      Spelled(toks, p, r) && (r.Parsed? ==> Stops(toks[r.next], k + 1))
    decreases |toks| - p, 17 - 2 * k
  {
    if k == 3 {
      UnarySpelled(toks, p);
    } else {
      LevelSpelled(toks, p, k + 1);
    }
  }

  /**
   * The loop of level `k`, with `left` read from `s` up to `p`: each pass
   * adds the operator token and the operand after it, and the loop stops
   * only at a token that continues no chain of level `k` or tighter.
   */
  lemma {:induction false} TailSpelled(toks: seq<Token>, k: nat, left: Expr, s: nat, p: nat)
    requires Terminated(toks) && LiteralsOfKind(toks) && p < |toks| && k < 4
    requires p == s + |Unparse(left)| && ReadsFrom(toks, s, Unparse(left)) && Stops(toks[p], k + 1)
    ensures var r := LevelTail(toks, k, left, p);
      Spelled(toks, s, r) && (r.Parsed? ==> Stops(toks[r.next], k))
    decreases |toks| - p, 0
  {
    if Matches(toks, p, Operators(k)) {
      OperandSpelled(toks, p + 1, k);
      var r := ParseOperand(toks, p + 1, k);
      if r.Parsed? {
        ReadsBinary(toks, s, left, r.expr);
        TailSpelled(toks, k, Binary(left, toks[p], r.expr), s, r.next);
      }
    }
  }

  lemma {:induction false} UnarySpelled(toks: seq<Token>, p: nat)
    requires Terminated(toks) && LiteralsOfKind(toks) && p < |toks|
    ensures Spelled(toks, p, ParseUnary(toks, p))
    decreases |toks| - p, 3
  {
    if Matches(toks, p, {Bang, Minus}) {
      UnarySpelled(toks, p + 1);
      var r := ParseUnary(toks, p + 1);
      if r.Parsed? {
        assert Unparse(Unary(toks[p], r.expr)) == [toks[p]] + Unparse(r.expr);
        assert ReadsFrom(toks, p, [toks[p]]);
        ReadsFromJoin(toks, p, [toks[p]], Unparse(r.expr));
      }
    } else {
      PrimarySpelled(toks, p);
    }
  }

  /** A literal token is read as the literal its own token would spell. */
  lemma {:induction false} PrimarySpelled(toks: seq<Token>, p: nat)
    requires Terminated(toks) && LiteralsOfKind(toks) && p < |toks|
    ensures Spelled(toks, p, ParsePrimary(toks, p))
    decreases |toks| - p, 2
  {
    assert Carries(toks[p].kind, toks[p].literal);
    PrimaryByKind(toks, p);
    if toks[p].kind == LeftParen {
      GroupSpelled(toks, p + 1);
    }
  }

  /** The group case, from the token after the '(' at `p - 1`. */
  lemma {:induction false} GroupSpelled(toks: seq<Token>, p: nat)
    requires Terminated(toks) && LiteralsOfKind(toks) && 0 < p < |toks| && toks[p - 1].kind == LeftParen
    ensures Spelled(toks, p - 1, ParseGroup(toks, p))
    decreases |toks| - p, 21
  {
    LevelSpelled(toks, p, 0);
    var r := ParseLevel(toks, p, 0);
    if r.Parsed? && Check(toks, r.next, RightBrace) {
      ReadsGroup(toks, p, r.expr);
    }
  }

  /**
   * On a list whose literal tokens carry literals of their kind, whatever
   * `parse` returns is a well-shaped tree whose tokens the list starts with,
   * followed by a token that continues no operator chain.
   */
  lemma ParseSpellsTree(toks: seq<Token>)
    requires Terminated(toks) && LiteralsOfKind(toks)
    ensures Parse(toks).Some? ==>
      var e := Parse(toks).value;
      && WellShaped(e) && |Unparse(e)| < |toks| && ReadsFrom(toks, 0, Unparse(e))
      && Stops(toks[|Unparse(e)|], 0)
  {
    LevelSpelled(toks, 0, 0);
    ParseShaped(toks);
  }

  /**
   * So `parse` returns `e` exactly when `e` is well shaped and the list
   * reads as its tokens followed by a token that continues no chain.
   */
  lemma ParseCharacterized(toks: seq<Token>, e: Expr)
    requires Terminated(toks) && LiteralsOfKind(toks)
    ensures Parse(toks) == Some(e) <==>
      && WellShaped(e) && |Unparse(e)| < |toks| && ReadsFrom(toks, 0, Unparse(e))
      && Stops(toks[|Unparse(e)|], 0)
  {
    ParseSpellsTree(toks);
    if WellShaped(e) && |Unparse(e)| < |toks| && ReadsFrom(toks, 0, Unparse(e)) && Stops(toks[|Unparse(e)|], 0) {
      assert forall j :: 0 <= j < |Unparse(e)| ==> ReadsAs(toks[0 + j], Unparse(e)[j]);
      ParseReadsTree(e, toks);
    }
  }

  // ---------------------------------------------------------------------
  // Consequences

  /** A failure in the first primary aborts every level above it, with the same report. */
  lemma {:induction false} FirstPrimaryFails(toks: seq<Token>, p: nat, k: nat)
    requires Terminated(toks) && p < |toks| && k < 4
    requires !Matches(toks, p, {Bang, Minus}) && ParsePrimary(toks, p).Failed?
    ensures ParseLevel(toks, p, k) == ParsePrimary(toks, p)
    decreases 4 - k
  {
    if k < 3 {
      FirstPrimaryFails(toks, p, k + 1);
    } else {
      assert ParseOperand(toks, p, k) == ParseUnary(toks, p) == ParsePrimary(toks, p);
    }
  }

  /**
   * A group closed by ')' is rejected: `primary` demands `RIGHT_BRACE`, so
   * the error is reported at the ')' and `parse` returns `null`.
   */
  lemma GroupClosedByParenRejected(e: Expr, rest: seq<Token>)
    requires WellShaped(e) && Terminated(rest)
    ensures var toks := [Token(LeftParen, "(", Null, 1)] + Unparse(e) + [Token(RightParen, ")", Null, 1)] + rest;
      && ParseExpression(toks, 0) == Failed(1 + |Unparse(e)|, "Expect ')' after expression.")
      && Parse(toks) == None
  {
    var toks := [Token(LeftParen, "(", Null, 1)] + Unparse(e) + [Token(RightParen, ")", Null, 1)] + rest;
    var end := 1 + |Unparse(e)|;
    assert toks[1..end] == Unparse(e);
    assert toks[end].kind == RightParen;
    assert toks[|toks| - 1] == rest[|rest| - 1];
    LevelRoundTrip(toks, 1, e, 0, end);
    assert ParseGroup(toks, 1) == Failed(end, "Expect ')' after expression.");
    FirstPrimaryFails(toks, 0, 0);
  }

  /**
   * `a op b op c` with two operators of one level folds to the left;
   * `ta`, `tb` and `tc` are any tokens that read as the three literals.
   */
  lemma LeftAssociative(a: Value, ta: Token, o1: Token, b: Value, tb: Token, o2: Token, c: Value, tc: Token, eof: Token)
    requires ReadsAs(ta, LiteralToken(a)) && ReadsAs(tb, LiteralToken(b)) && ReadsAs(tc, LiteralToken(c))
    requires OpLevel(o1.kind) < 4 && OpLevel(o2.kind) == OpLevel(o1.kind) && eof.kind == Eof
    ensures Parse([ta, o1, tb, o2, tc, eof]) == Some(Binary(Binary(Literal(a), o1, Literal(b)), o2, Literal(c)))
  {
    var e := Binary(Binary(Literal(a), o1, Literal(b)), o2, Literal(c));
    assert Unparse(e.left) == [LiteralToken(a), o1, LiteralToken(b)];
    assert Unparse(e) == [LiteralToken(a), o1, LiteralToken(b), o2, LiteralToken(c)];
    ParseReadsTree(e, [ta, o1, tb, o2, tc, eof]);
  }

  /** In `a op1 b op2 c`, a tighter `op2` takes `b` as its left operand. */
  lemma TighterBindsFirst(a: Value, ta: Token, o1: Token, b: Value, tb: Token, o2: Token, c: Value, tc: Token, eof: Token)
    requires ReadsAs(ta, LiteralToken(a)) && ReadsAs(tb, LiteralToken(b)) && ReadsAs(tc, LiteralToken(c))
    requires OpLevel(o1.kind) < OpLevel(o2.kind) < 4 && eof.kind == Eof
    ensures Parse([ta, o1, tb, o2, tc, eof]) == Some(Binary(Literal(a), o1, Binary(Literal(b), o2, Literal(c))))
  {
    var e := Binary(Literal(a), o1, Binary(Literal(b), o2, Literal(c)));
    assert Unparse(e.right) == [LiteralToken(b), o2, LiteralToken(c)];
    assert Unparse(e) == [LiteralToken(a), o1, LiteralToken(b), o2, LiteralToken(c)];
    ParseReadsTree(e, [ta, o1, tb, o2, tc, eof]);
  }

  /** In `a op1 b op2 c`, a looser `op2` takes `a op1 b` as its left operand. */
  lemma LooserBindsLast(a: Value, ta: Token, o1: Token, b: Value, tb: Token, o2: Token, c: Value, tc: Token, eof: Token)
    requires ReadsAs(ta, LiteralToken(a)) && ReadsAs(tb, LiteralToken(b)) && ReadsAs(tc, LiteralToken(c))
    requires OpLevel(o2.kind) < OpLevel(o1.kind) < 4 && eof.kind == Eof
    ensures Parse([ta, o1, tb, o2, tc, eof]) == Some(Binary(Binary(Literal(a), o1, Literal(b)), o2, Literal(c)))
  {
    var e := Binary(Binary(Literal(a), o1, Literal(b)), o2, Literal(c));
    assert Unparse(e.left) == [LiteralToken(a), o1, LiteralToken(b)];
    assert Unparse(e) == [LiteralToken(a), o1, LiteralToken(b), o2, LiteralToken(c)];
    ParseReadsTree(e, [ta, o1, tb, o2, tc, eof]);
  }

  /** Prefix operators nest to the right: `- - 1` is `-(-1)`. */
  lemma UnaryNests(o1: Token, o2: Token, a: Value, ta: Token, eof: Token)
    requires ReadsAs(ta, LiteralToken(a))
    requires o1.kind in {Bang, Minus} && o2.kind in {Bang, Minus} && eof.kind == Eof
    ensures Parse([o1, o2, ta, eof]) == Some(Unary(o1, Unary(o2, Literal(a))))
  {
    var e := Unary(o1, Unary(o2, Literal(a)));
    assert Unparse(e.right) == [o2, LiteralToken(a)];
    assert Unparse(e) == [o1, o2, LiteralToken(a)];
    ParseReadsTree(e, [o1, o2, ta, eof]);
  }
}
