/**
 * The recursive-descent parser (src/parser.rs).
 *
 * The grammar, loosest level first:
 *   expression -> equality
 *   equality   -> comparison ( ( "!=" | "==" ) comparison )*
 *   comparison -> term ( ( ">" | ">=" | "<" | "<=" ) term )*
 *   term       -> factor ( ( "-" | "+" ) factor )*
 *   factor     -> unary ( ( "/" | "*" ) unary )*
 *   unary      -> ( "!" | "-" ) unary | primary
 *   primary    -> "false" | "true" | "nil" | NUMBER | STRING | "(" expression ")"
 *
 * The four binary levels share one shape in the source, and are one
 * level-parameterised definition here.  A reference definition over values
 * (ParseExpression and the functions it calls, from a token position to a
 * result) is given first; class Parser then has the source's cursor field and
 * methods, each proved to compute what the reference definition says.
 *
 * The source leaves `consume` unimplemented and gives `primary` no final
 * branch; both are modelled as the errors they evidently stand for: a missing
 * ')' and a token that starts no expression.
 */
module Parser {
  import opened Tokens
  import opened Ast

  /** The binary precedence levels, loosest first. */
  datatype Level = Equality | Comparison | Term | Factor

  /** The operators `match_next` looks for at each level. */
  function Operators(level: Level): seq<TokenType> {
    match level
    case Equality => [BangEqual, EqualEqual]
    case Comparison => [Greater, GreaterEqual, Less, LessEqual]
    case Term => [Minus, Plus]
    case Factor => [Slash, Star]
  }

  const UnaryOperators: seq<TokenType> := [Bang, Minus]

  /** 4 for the loosest level down to 1 for the tightest. */
  function Rank(level: Level): nat {
    match level
    case Equality => 4
    case Comparison => 3
    case Term => 2
    case Factor => 1
  }

  /** The level the operands of a non-factor level are parsed at. */
  function Tighter(level: Level): (t: Level)
    requires level != Factor
    ensures Rank(t) == Rank(level) - 1
  {
    match level
    case Equality => Comparison
    case Comparison => Term
    case Term => Factor
  }

  /** The precedence of a binary operator kind: the rank of the one level whose
      operator it is, or 0 for a kind that is no binary operator. */
  function BinaryRank(k: TokenType): (n: nat)
    ensures n <= 4
  {
    match k
    case BangEqual | EqualEqual => 4
    case Greater | GreaterEqual | Less | LessEqual => 3
    case Minus | Plus => 2
    case Slash | Star => 1
    case _ => 0
  }

  lemma {:induction false} BinaryRankOf(k: TokenType, level: Level)
    ensures k in Operators(level) <==> BinaryRank(k) == Rank(level)
  {
  }

  /** The kinds an expression can start with. */
  const StartKinds: seq<TokenType> := [Bang, Minus, False, True, Nil, Number, String, LeftParen]

  datatype ParseError =
    | ExpectedExpression(at: nat)   // the token at `at` starts no expression
    | ExpectedRightParen(at: nat)   // the token at `at` should have closed a group

  datatype ParseResult = Parsed(expr: Expr, next: nat) | Failed(error: ParseError)

  /** What the parser needs of its input: it ends with Eof, which stops the cursor,
      and every Number and String token carries its literal, which `primary`
      unwraps. */
  predicate WellFormed(ts: seq<Token>) {
    && |ts| > 0
    && ts[|ts| - 1].kind == Eof
    && forall i :: 0 <= i < |ts| && (ts[i].kind == Number || ts[i].kind == String) ==> ts[i].literal.Some?
  }

  /** The test `match_next(kinds)` makes: the token at pos is not Eof and has one of the kinds. */
  predicate MatchesAt(ts: seq<Token>, pos: nat, kinds: seq<TokenType>)
    requires pos < |ts|
  {
    ts[pos].kind != Eof && ts[pos].kind in kinds
  }

  /** Where a parse leaves the cursor: after the expression, or on the offending token. */
  function Position(r: ParseResult): nat {
    if r.Parsed? then r.next else r.error.at
  }

  /** A parse from pos moves forward, and stays on a token. */
  predicate Advances(ts: seq<Token>, pos: nat, r: ParseResult) {
    if r.Parsed? then pos < r.next < |ts| else pos <= r.error.at < |ts|
  }

  // ---------------------------------------------------------------------------
  // The reference definition

  function ParseExpression(ts: seq<Token>, pos: nat): (r: ParseResult)
    requires WellFormed(ts) && pos < |ts|
    ensures Advances(ts, pos, r)
    decreases |ts| - pos, 10
  {
    ParseBinary(ts, pos, Equality)
  }

  /** One binary level: an operand, then any number of (operator, operand) pairs,
      folded to the left. */
  function ParseBinary(ts: seq<Token>, pos: nat, level: Level): (r: ParseResult)
    requires WellFormed(ts) && pos < |ts|
    ensures Advances(ts, pos, r)
    decreases |ts| - pos, 2 * Rank(level) + 1
  {
    var first := ParseOperand(ts, pos, level);
    if first.Failed? then first else BinaryRest(ts, level, first.expr, first.next)
  }

  /** An operand of a level: the next tighter level, or a unary expression under factor. */
  function ParseOperand(ts: seq<Token>, pos: nat, level: Level): (r: ParseResult)
    requires WellFormed(ts) && pos < |ts|
    ensures Advances(ts, pos, r)
    decreases |ts| - pos, 2 * Rank(level)
  {
    if level == Factor then ParseUnary(ts, pos) else ParseBinary(ts, pos, Tighter(level))
  }

  /** The `while match_next(..)` loop of a level, with `left` parsed so far. */
  function BinaryRest(ts: seq<Token>, level: Level, left: Expr, pos: nat): (r: ParseResult)
    requires WellFormed(ts) && pos < |ts|
    ensures r.Parsed? ==> pos <= r.next < |ts|
    ensures r.Failed? ==> pos < r.error.at < |ts|
    decreases |ts| - pos, 0
  {
    if MatchesAt(ts, pos, Operators(level)) then
      var right := ParseOperand(ts, pos + 1, level);
      if right.Failed? then right else BinaryRest(ts, level, Binary(left, ts[pos], right.expr), right.next)
    else
      Parsed(left, pos)
  }

  function ParseUnary(ts: seq<Token>, pos: nat): (r: ParseResult)
    requires WellFormed(ts) && pos < |ts|
    ensures Advances(ts, pos, r)
    decreases |ts| - pos, 1
  {
    if MatchesAt(ts, pos, UnaryOperators) then
      var right := ParseUnary(ts, pos + 1);
      if right.Failed? then right else Parsed(Unary(ts[pos], right.expr), right.next)
    else
      ParsePrimary(ts, pos)
  }

  function ParsePrimary(ts: seq<Token>, pos: nat): (r: ParseResult)
    requires WellFormed(ts) && pos < |ts|
    ensures Advances(ts, pos, r)
    decreases |ts| - pos, 0
  {
    if MatchesAt(ts, pos, [False]) then Parsed(Literal(StringLit("false")), pos + 1)
    else if MatchesAt(ts, pos, [True]) then Parsed(Literal(StringLit("true")), pos + 1)
    else if MatchesAt(ts, pos, [Nil]) then Parsed(Literal(StringLit("null")), pos + 1)
    else if MatchesAt(ts, pos, [Number, String]) then Parsed(Literal(ts[pos].literal.value), pos + 1)
    else if MatchesAt(ts, pos, [LeftParen]) then
      var inner := ParseExpression(ts, pos + 1);
      if inner.Failed? then inner
      else if MatchesAt(ts, inner.next, [RightParen]) then Parsed(Grouping(inner.expr), inner.next + 1)
      else Failed(ExpectedRightParen(inner.next))
    else
      Failed(ExpectedExpression(pos))
  }

  /** One turn of a level's loop, as the loop in Parser.Binary takes it. */
  lemma {:induction false} RestStep(ts: seq<Token>, level: Level, left: Expr, pos: nat, right: ParseResult)
    requires WellFormed(ts) && pos < |ts| && MatchesAt(ts, pos, Operators(level))
    requires right == ParseOperand(ts, pos + 1, level)
    ensures right.Failed? ==> BinaryRest(ts, level, left, pos) == right
    ensures right.Parsed? ==> BinaryRest(ts, level, left, pos) == BinaryRest(ts, level, Binary(left, ts[pos], right.expr), right.next)
  {
  }

  /** The loop of a level stops on a token that is none of its operators. */
  lemma {:induction false} RestStop(ts: seq<Token>, level: Level, left: Expr, pos: nat)
    requires WellFormed(ts) && pos < |ts| && !MatchesAt(ts, pos, Operators(level))
    ensures BinaryRest(ts, level, left, pos) == Parsed(left, pos)
  {
  }

  // ---------------------------------------------------------------------------
  // What a parse produces

  /** e has the shape of a parse at rank k (4 for an expression down to 1 for a
      factor, 0 for a unary expression): a binary node's operator is of a rank from
      1 to k, its left operand has at most that rank and its right operand a rank
      strictly below it, so a chain of equal-rank operators leans to the left; a
      unary node applies '!' or '-' to a unary expression; a group holds an
      expression of any rank. */
  predicate Layered(e: Expr, k: nat) {
    match e
    case Binary(l, op, r) =>
      var b := BinaryRank(op.kind);
      1 <= b <= k && Layered(l, b) && Layered(r, b - 1)
    case Unary(op, r) => op.kind in UnaryOperators && Layered(r, 0)
    case Grouping(x) => Layered(x, 4)
    case Literal(_) => true
  }

  /** Where each error is reported: on a token that starts no expression, or on the
      token standing where the ')' should be. */
  predicate ErrorAt(ts: seq<Token>, err: ParseError) {
    match err
    case ExpectedExpression(at) => at < |ts| && ts[at].kind !in StartKinds
    case ExpectedRightParen(at) => at < |ts| && ts[at].kind != RightParen
  }

  predicate Sound(ts: seq<Token>, r: ParseResult, k: nat) {
    if r.Parsed? then Layered(r.expr, k) else ErrorAt(ts, r.error)
  }

  lemma {:induction false} LayeredWeaken(e: Expr, k: nat, k': nat)
    requires Layered(e, k) && k <= k'
    ensures Layered(e, k')
  {
  }

  /** Every tree the parser builds respects precedence and associativity, and every
      error names a token that is really out of place. */
  lemma {:induction false} ExpressionSound(ts: seq<Token>, pos: nat)
    requires WellFormed(ts) && pos < |ts|
    ensures Sound(ts, ParseExpression(ts, pos), 4)
    decreases |ts| - pos, 10
  {
    BinarySound(ts, pos, Equality);
  }

  lemma {:induction false} BinarySound(ts: seq<Token>, pos: nat, level: Level)
    requires WellFormed(ts) && pos < |ts|
    ensures Sound(ts, ParseBinary(ts, pos, level), Rank(level))
    decreases |ts| - pos, 2 * Rank(level) + 1
  {
    var first := ParseOperand(ts, pos, level);
    OperandSound(ts, pos, level);
    if first.Parsed? {
      LayeredWeaken(first.expr, Rank(level) - 1, Rank(level));
      RestSound(ts, level, first.expr, first.next);
    }
  }

  lemma {:induction false} OperandSound(ts: seq<Token>, pos: nat, level: Level)
    requires WellFormed(ts) && pos < |ts|
    ensures Sound(ts, ParseOperand(ts, pos, level), Rank(level) - 1)
    decreases |ts| - pos, 2 * Rank(level)
  {
    if level == Factor {
      UnarySound(ts, pos);
    } else {
      BinarySound(ts, pos, Tighter(level));
    }
  }

  lemma {:induction false} RestSound(ts: seq<Token>, level: Level, left: Expr, pos: nat)
    requires WellFormed(ts) && pos < |ts| && Layered(left, Rank(level))
    ensures Sound(ts, BinaryRest(ts, level, left, pos), Rank(level))
    decreases |ts| - pos, 0
  {
    if MatchesAt(ts, pos, Operators(level)) {
      var right := ParseOperand(ts, pos + 1, level);
      RestStep(ts, level, left, pos, right);
      OperandSound(ts, pos + 1, level);
      if right.Parsed? {
        BinaryRankOf(ts[pos].kind, level);
        var b := Binary(left, ts[pos], right.expr);
        assert Layered(b, Rank(level));
        RestSound(ts, level, b, right.next);
      }
    } else {
      assert BinaryRest(ts, level, left, pos) == Parsed(left, pos);
    }
  }

  lemma {:induction false} UnarySound(ts: seq<Token>, pos: nat)
    requires WellFormed(ts) && pos < |ts|
    ensures Sound(ts, ParseUnary(ts, pos), 0)
    decreases |ts| - pos, 1
  {
    if MatchesAt(ts, pos, UnaryOperators) {
      UnarySound(ts, pos + 1);
    } else {
      PrimarySound(ts, pos);
    }
  }

  lemma {:induction false} PrimarySound(ts: seq<Token>, pos: nat)
    requires WellFormed(ts) && pos < |ts| && !MatchesAt(ts, pos, UnaryOperators)
    ensures Sound(ts, ParsePrimary(ts, pos), 0)
    decreases |ts| - pos, 0
  {
    if ts[pos].kind == LeftParen {
      ExpressionSound(ts, pos + 1);
      GroupSound(ts, pos);
    } else {
      LeafSound(ts, pos);
    }
  }

  /** A group is sound when the expression inside it is. */
  lemma {:induction false} GroupSound(ts: seq<Token>, pos: nat)
    requires WellFormed(ts) && pos + 1 < |ts| && ts[pos].kind == LeftParen
    requires Sound(ts, ParseExpression(ts, pos + 1), 4)
    ensures Sound(ts, ParsePrimary(ts, pos), 0)
  {
    var inner := ParseExpression(ts, pos + 1);
    if inner.Parsed? && MatchesAt(ts, inner.next, [RightParen]) {
      assert ParsePrimary(ts, pos) == Parsed(Grouping(inner.expr), inner.next + 1);
    }
  }

  /** A primary expression that is not a group: a literal, or an error on its token. */
  lemma {:induction false} LeafSound(ts: seq<Token>, pos: nat)
    requires WellFormed(ts) && pos < |ts| && !MatchesAt(ts, pos, UnaryOperators) && ts[pos].kind != LeftParen
    ensures Sound(ts, ParsePrimary(ts, pos), 0)
  {
    var k := ts[pos].kind;
    if k in [False, True, Nil, Number, String] {
      assert ParsePrimary(ts, pos).Parsed? && ParsePrimary(ts, pos).expr.Literal?;
    } else {
      assert ParsePrimary(ts, pos) == Failed(ExpectedExpression(pos));
    }
  }

  // ---------------------------------------------------------------------------
  // Parsing undoes flattening

  /** The token a literal is scanned from. */
  function LiteralToken(lit: Literal): (t: Token)
    ensures t.literal == Some(lit) && (t.kind == Number || t.kind == String)
  {
    match lit
    case StringLit(s) => Token(String, "\"" + s + "\"", Some(lit), 1)
    case NumberLit(n) => Token(Number, n, Some(lit), 1)
  }

  const OpenParen: Token := Token(LeftParen, "(", None, 1)
  const CloseParen: Token := Token(RightParen, ")", None, 1)

  /** The tokens an expression is written with, groups in parentheses. */
  function Flatten(e: Expr): (ts: seq<Token>)
    ensures |ts| > 0
  {
    match e
    case Binary(l, op, r) => Flatten(l) + [op] + Flatten(r)
    case Unary(op, r) => [op] + Flatten(r)
    case Grouping(x) => [OpenParen] + Flatten(x) + [CloseParen]
    case Literal(lit) => [LiteralToken(lit)]
  }

  lemma {:induction false} Split3(ts: seq<Token>, pos: nat, end: nat, a: seq<Token>, t: Token, b: seq<Token>)
    requires pos <= end <= |ts| && ts[pos..end] == a + [t] + b
    ensures pos + |a| < end
    ensures ts[pos..pos + |a|] == a && ts[pos + |a|] == t && ts[pos + |a| + 1..end] == b
  {
    var m := pos + |a|;
    assert ts[pos..m] == ts[pos..end][..|a|];
    assert ts[m + 1..end] == ts[pos..end][|a| + 1..];
    assert ts[m] == ts[pos..end][|a|];
  }

  /** A unary expression written out at pos is parsed back, whatever follows it. */
  lemma {:induction false} UnaryRoundTrip(ts: seq<Token>, pos: nat, end: nat, e: Expr)
    requires WellFormed(ts) && pos <= end < |ts| && ts[pos..end] == Flatten(e) && Layered(e, 0)
    ensures ParseUnary(ts, pos) == Parsed(e, end)
    decreases e, 0, 1
  {
    match e
    case Unary(op, r) => NegationRoundTrip(ts, pos, end, op, r);
    case Grouping(x) => GroupRoundTrip(ts, pos, end, x);
    case Literal(lit) => LiteralRoundTrip(ts, pos, end, lit);
  }

  lemma {:induction false} NegationRoundTrip(ts: seq<Token>, pos: nat, end: nat, op: Token, r: Expr)
    requires WellFormed(ts) && pos <= end < |ts| && ts[pos..end] == [op] + Flatten(r)
    requires op.kind in UnaryOperators && Layered(r, 0)
    ensures ParseUnary(ts, pos) == Parsed(Unary(op, r), end)
    decreases Unary(op, r), 0, 0
  {
    assert [op] + Flatten(r) == [] + [op] + Flatten(r);
    Split3(ts, pos, end, [], op, Flatten(r));
    UnaryRoundTrip(ts, pos + 1, end, r);
    UnaryApply(ts, pos, r, end);
  }

  lemma {:induction false} GroupRoundTrip(ts: seq<Token>, pos: nat, end: nat, x: Expr)
    requires WellFormed(ts) && pos <= end < |ts| && ts[pos..end] == [OpenParen] + Flatten(x) + [CloseParen]
    requires Layered(x, 4)
    ensures ParseUnary(ts, pos) == Parsed(Grouping(x), end)
    decreases Grouping(x), 0, 0
  {
    SplitEnds(ts, pos, end, OpenParen, Flatten(x), CloseParen);
    var m := end - 1;
    assert ts[pos].kind == LeftParen && ts[m].kind == RightParen;
    assert BinaryRank(RightParen) == 0;
    assert ParseBinary(ts, pos + 1, Equality) == BinaryRest(ts, Equality, x, m) by {
      BinaryRoundTrip(ts, pos + 1, m, x, Equality);
    }
    UnaryGroup(ts, pos, x, m);
  }

  lemma {:induction false} SplitEnds(ts: seq<Token>, pos: nat, end: nat, a: Token, w: seq<Token>, b: Token)
    requires pos <= end <= |ts| && ts[pos..end] == [a] + w + [b]
    ensures pos + 1 < end && ts[pos] == a && ts[pos + 1..end - 1] == w && ts[end - 1] == b
  {
    assert end - pos == |w| + 2;
    assert ts[pos] == ts[pos..end][0];
    assert ts[end - 1] == ts[pos..end][|w| + 1];
    var v := ts[pos..end];
    forall i | 0 <= i < |w| ensures ts[pos + 1..end - 1][i] == w[i] {
      assert v[i + 1] == w[i];
    }
  }

  lemma {:induction false} LiteralRoundTrip(ts: seq<Token>, pos: nat, end: nat, lit: Literal)
    requires WellFormed(ts) && pos <= end < |ts| && ts[pos..end] == [LiteralToken(lit)]
    ensures ParseUnary(ts, pos) == Parsed(Literal(lit), end)
  {
    assert ts[pos..end][0] == ts[pos];
    UnaryLiteral(ts, pos);
  }

  /** A '!' or '-' applied to the unary expression after it. */
  lemma {:induction false} UnaryApply(ts: seq<Token>, pos: nat, r: Expr, end: nat)
    requires WellFormed(ts) && pos + 1 < |ts| && ts[pos].kind in UnaryOperators
    requires ParseUnary(ts, pos + 1) == Parsed(r, end)
    ensures ParseUnary(ts, pos) == Parsed(Unary(ts[pos], r), end)
  {
  }

  /** A Number or String token is parsed as the literal it carries. */
  lemma {:induction false} UnaryLiteral(ts: seq<Token>, pos: nat)
    requires WellFormed(ts) && pos < |ts| && ts[pos].kind in {Number, String}
    ensures ParseUnary(ts, pos) == Parsed(Literal(ts[pos].literal.value), pos + 1)
  {
    assert ParseUnary(ts, pos) == ParsePrimary(ts, pos);
  }

  /** '(' expression ')' taken as a unary expression. */
  lemma {:induction false} UnaryGroup(ts: seq<Token>, pos: nat, x: Expr, m: nat)
    requires WellFormed(ts) && pos + 1 < |ts| && ts[pos].kind == LeftParen
    requires m < |ts| && ParseBinary(ts, pos + 1, Equality) == BinaryRest(ts, Equality, x, m) && ts[m].kind == RightParen
    ensures ParseUnary(ts, pos) == Parsed(Grouping(x), m + 1)
  {
    assert !MatchesAt(ts, m, Operators(Equality));
    assert ParseExpression(ts, pos + 1) == Parsed(x, m);
    assert ParsePrimary(ts, pos) == Parsed(Grouping(x), m + 1);
    assert ParseUnary(ts, pos) == ParsePrimary(ts, pos);
  }

  /** An expression of rank at most that of level, written out at pos and followed
      by no operator of a tighter level, is parsed back as the left operand of the
      level's loop. */
  lemma {:induction false} BinaryRoundTrip(ts: seq<Token>, pos: nat, end: nat, e: Expr, level: Level)
    requires WellFormed(ts) && pos <= end < |ts| && ts[pos..end] == Flatten(e) && Layered(e, Rank(level))
    requires !(1 <= BinaryRank(ts[end].kind) < Rank(level))
    ensures ParseBinary(ts, pos, level) == BinaryRest(ts, level, e, end)
    decreases e, 2 * Rank(level) + 1, 3
  {
    if e.Binary? && BinaryRank(e.operator.kind) == Rank(level) {
      ChainRoundTrip(ts, pos, end, e.left, e.operator, e.right, level);
    } else {
      LayeredBelow(e, Rank(level));
      OperandRoundTrip(ts, pos, end, e, level);
    }
  }

  /** A tree of rank at most k whose root is not an operator of rank k has rank below k. */
  lemma {:induction false} LayeredBelow(e: Expr, k: nat)
    requires 1 <= k && Layered(e, k) && !(e.Binary? && BinaryRank(e.operator.kind) == k)
    ensures Layered(e, k - 1)
  {
  }

  /** A binary node of the level's own rank: its left operand is parsed by the same
      level, up to its operator, and the loop then takes the operator and the right
      operand. */
  lemma {:induction false} ChainRoundTrip(ts: seq<Token>, pos: nat, end: nat, l: Expr, op: Token, r: Expr, level: Level)
    requires WellFormed(ts) && pos <= end < |ts| && ts[pos..end] == Flatten(l) + [op] + Flatten(r)
    requires BinaryRank(op.kind) == Rank(level) && Layered(l, Rank(level)) && Layered(r, Rank(level) - 1)
    requires !(1 <= BinaryRank(ts[end].kind) < Rank(level))
    ensures ParseBinary(ts, pos, level) == BinaryRest(ts, level, Binary(l, op, r), end)
    decreases Binary(l, op, r), 2 * Rank(level) + 1, 2
  {
    Split3(ts, pos, end, Flatten(l), op, Flatten(r));
    LeftThenOperator(ts, pos, pos + |Flatten(l)|, end, l, op, r, level);
  }

  lemma {:induction false} LeftThenOperator(ts: seq<Token>, pos: nat, m: nat, end: nat, l: Expr, op: Token, r: Expr, level: Level)
    requires WellFormed(ts) && pos <= m < end < |ts|
    requires ts[pos..m] == Flatten(l) && ts[m] == op && ts[m + 1..end] == Flatten(r)
    requires BinaryRank(op.kind) == Rank(level) && Layered(l, Rank(level)) && Layered(r, Rank(level) - 1)
    requires !(1 <= BinaryRank(ts[end].kind) < Rank(level))
    ensures ParseBinary(ts, pos, level) == BinaryRest(ts, level, Binary(l, op, r), end)
    decreases Binary(l, op, r), 2 * Rank(level) + 1, 1
  {
    assert ParseBinary(ts, pos, level) == BinaryRest(ts, level, l, m) by {
      BinaryRoundTrip(ts, pos, m, l, level);
    }
    TakeOperator(ts, m, end, l, op, r, level);
  }

  /** The level's loop, standing on the operator, takes it and the right operand. */
  lemma {:induction false} TakeOperator(ts: seq<Token>, m: nat, end: nat, l: Expr, op: Token, r: Expr, level: Level)
    requires WellFormed(ts) && m < end < |ts| && ts[m] == op && ts[m + 1..end] == Flatten(r)
    requires BinaryRank(op.kind) == Rank(level) && Layered(r, Rank(level) - 1)
    requires !(1 <= BinaryRank(ts[end].kind) < Rank(level))
    ensures BinaryRest(ts, level, l, m) == BinaryRest(ts, level, Binary(l, op, r), end)
    decreases Binary(l, op, r), 2 * Rank(level) + 1, 0
  {
    BinaryRankOf(op.kind, level);
    OperandRoundTrip(ts, m + 1, end, r, level);
    RestStep(ts, level, l, m, Parsed(r, end));
  }

  lemma {:induction false} OperandRoundTrip(ts: seq<Token>, pos: nat, end: nat, e: Expr, level: Level)
    requires WellFormed(ts) && pos <= end < |ts| && ts[pos..end] == Flatten(e) && Layered(e, Rank(level) - 1)
    requires !(1 <= BinaryRank(ts[end].kind) < Rank(level))
    ensures ParseOperand(ts, pos, level) == Parsed(e, end)
    decreases e, 2 * Rank(level), 0
  {
    if level == Factor {
      UnaryRoundTrip(ts, pos, end, e);
    } else {
      BinaryRoundTrip(ts, pos, end, e, Tighter(level));
      BinaryRankOf(ts[end].kind, Tighter(level));
    }
  }

  /** A token other than Eof, carrying its literal when it is a Number or a String. */
  predicate Carried(t: Token) {
    t.kind != Eof && (t.kind == Number || t.kind == String ==> t.literal.Some?)
  }

  /** Every token of a layered tree's written form is carried. */
  lemma {:induction false} FlattenCarried(e: Expr, k: nat, i: nat)
    requires Layered(e, k) && i < |Flatten(e)|
    ensures Carried(Flatten(e)[i])
  {
    match e
    case Binary(l, op, r) =>
      var n := |Flatten(l)|;
      if i < n {
        assert Flatten(e)[i] == Flatten(l)[i];
        FlattenCarried(l, BinaryRank(op.kind), i);
      } else if i == n {
        assert Flatten(e)[i] == op;
      } else {
        assert Flatten(e)[i] == Flatten(r)[i - n - 1];
        FlattenCarried(r, BinaryRank(op.kind) - 1, i - n - 1);
      }
    case Unary(op, r) =>
      if i > 0 {
        assert Flatten(e)[i] == Flatten(r)[i - 1];
        FlattenCarried(r, 0, i - 1);
      }
    case Grouping(x) =>
      if 0 < i <= |Flatten(x)| {
        assert Flatten(e)[i] == Flatten(x)[i - 1];
        FlattenCarried(x, 4, i - 1);
      }
    case Literal(lit) =>
  }

  /** Parsing the written-out tokens of any tree of expression shape, ended by Eof,
      gives back that tree.  With ExpressionSound, the trees the parser can produce
      are exactly the layered ones. */
  lemma {:induction false} ParseFlatten(e: Expr, eof: Token)
    requires Layered(e, 4) && eof.kind == Eof
    ensures WellFormed(Flatten(e) + [eof])
    ensures ParseExpression(Flatten(e) + [eof], 0) == Parsed(e, |Flatten(e)|)
  {
    var ts := Flatten(e) + [eof];
    assert WellFormed(ts) by {
      forall i | 0 <= i < |Flatten(e)| ensures Carried(ts[i]) {
        assert ts[i] == Flatten(e)[i];
        FlattenCarried(e, 4, i);
      }
    }
    assert ParseBinary(ts, 0, Equality) == BinaryRest(ts, Equality, e, |Flatten(e)|) by {
      assert ts[0..|Flatten(e)|] == Flatten(e);
      BinaryRoundTrip(ts, 0, |Flatten(e)|, e, Equality);
    }
  }

  // ---------------------------------------------------------------------------
  // Consequences

  /** A token that starts no expression is reported where it stands, at every level. */
  lemma {:induction false} NoStartBinary(ts: seq<Token>, pos: nat, level: Level)
    requires WellFormed(ts) && pos < |ts| && ts[pos].kind !in StartKinds
    ensures ParseBinary(ts, pos, level) == Failed(ExpectedExpression(pos))
  {
    assert ParseUnary(ts, pos) == ParsePrimary(ts, pos);
    FailureLifts(ts, pos, level);
  }

  lemma {:induction false} NoStartExpression(ts: seq<Token>, pos: nat)
    requires WellFormed(ts) && pos < |ts|
    ensures ParseExpression(ts, pos) == Failed(ExpectedExpression(pos)) <==> ts[pos].kind !in StartKinds
  {
    if ts[pos].kind !in StartKinds {
      NoStartBinary(ts, pos, Equality);
    } else {
      ExpressionSound(ts, pos);
    }
  }

  /** An input holding only Eof is an error at its first token. */
  lemma {:induction false} EmptyInput(eof: Token)
    requires eof.kind == Eof
    ensures ParseExpression([eof], 0) == Failed(ExpectedExpression(0))
  {
    NoStartExpression([eof], 0);
  }

  /** `a - b - c` is `(a - b) - c`. */
  lemma {:induction false} SubtractionLeansLeft(a: Literal, b: Literal, c: Literal, m1: Token, m2: Token, eof: Token)
    requires m1.kind == Minus && m2.kind == Minus && eof.kind == Eof
    ensures var ts := [LiteralToken(a), m1, LiteralToken(b), m2, LiteralToken(c), eof];
      WellFormed(ts) && ParseExpression(ts, 0) == Parsed(Binary(Binary(Literal(a), m1, Literal(b)), m2, Literal(c)), 5)
  {
    var x := Binary(Literal(a), m1, Literal(b));
    var e := Binary(x, m2, Literal(c));
    assert BinaryRank(Minus) == 2;
    assert Layered(Literal(a), 2) && Layered(Literal(b), 1);
    assert Layered(x, 2);
    assert Flatten(x) == [LiteralToken(a), m1, LiteralToken(b)];
    assert Flatten(e) + [eof] == [LiteralToken(a), m1, LiteralToken(b), m2, LiteralToken(c), eof];
    ParseFlatten(e, eof);
  }

  /** `a + b * c` is `a + (b * c)`. */
  lemma {:induction false} ProductBindsTighter(a: Literal, b: Literal, c: Literal, plus: Token, star: Token, eof: Token)
    requires plus.kind == Plus && star.kind == Star && eof.kind == Eof
    ensures var ts := [LiteralToken(a), plus, LiteralToken(b), star, LiteralToken(c), eof];
      WellFormed(ts) && ParseExpression(ts, 0) == Parsed(Binary(Literal(a), plus, Binary(Literal(b), star, Literal(c))), 5)
  {
    var x := Binary(Literal(b), star, Literal(c));
    var e := Binary(Literal(a), plus, x);
    assert BinaryRank(Plus) == 2 && BinaryRank(Star) == 1;
    assert Layered(Literal(b), 1) && Layered(Literal(c), 0);
    assert Layered(x, 1);
    assert Flatten(x) == [LiteralToken(b), star, LiteralToken(c)];
    assert Flatten(e) + [eof] == [LiteralToken(a), plus, LiteralToken(b), star, LiteralToken(c), eof];
    ParseFlatten(e, eof);
  }

  /** `a == b < c` is `a == (b < c)`. */
  lemma {:induction false} ComparisonBindsTighter(a: Literal, b: Literal, c: Literal, eq: Token, less: Token, eof: Token)
    requires eq.kind == EqualEqual && less.kind == Less && eof.kind == Eof
    ensures var ts := [LiteralToken(a), eq, LiteralToken(b), less, LiteralToken(c), eof];
      WellFormed(ts) && ParseExpression(ts, 0) == Parsed(Binary(Literal(a), eq, Binary(Literal(b), less, Literal(c))), 5)
  {
    var x := Binary(Literal(b), less, Literal(c));
    var e := Binary(Literal(a), eq, x);
    assert BinaryRank(EqualEqual) == 4 && BinaryRank(Less) == 3;
    assert Layered(Literal(b), 3) && Layered(Literal(c), 2);
    assert Layered(x, 3);
    assert Flatten(x) == [LiteralToken(b), less, LiteralToken(c)];
    assert Flatten(e) + [eof] == [LiteralToken(a), eq, LiteralToken(b), less, LiteralToken(c), eof];
    ParseFlatten(e, eof);
  }

  /** `(a == b) < c` keeps its group as the left operand. */
  lemma {:induction false} GroupOverridesPrecedence(a: Literal, b: Literal, c: Literal, eq: Token, less: Token, eof: Token)
    requires eq.kind == EqualEqual && less.kind == Less && eof.kind == Eof
    ensures var ts := [OpenParen, LiteralToken(a), eq, LiteralToken(b), CloseParen, less, LiteralToken(c), eof];
      WellFormed(ts) && ParseExpression(ts, 0) == Parsed(Binary(Grouping(Binary(Literal(a), eq, Literal(b))), less, Literal(c)), 7)
  {
    var x := Binary(Literal(a), eq, Literal(b));
    var e := Binary(Grouping(x), less, Literal(c));
    assert BinaryRank(EqualEqual) == 4 && BinaryRank(Less) == 3;
    assert Layered(Literal(a), 4) && Layered(Literal(b), 3);
    assert Layered(x, 4);
    assert Layered(Grouping(x), 3);
    assert Flatten(x) == [LiteralToken(a), eq, LiteralToken(b)];
    assert Flatten(Grouping(x)) == [OpenParen, LiteralToken(a), eq, LiteralToken(b), CloseParen];
    assert Flatten(e) + [eof] == [OpenParen, LiteralToken(a), eq, LiteralToken(b), CloseParen, less, LiteralToken(c), eof];
    ParseFlatten(e, eof);
  }

  /** `- - a` and `! - a` nest to the right. */
  lemma {:induction false} UnaryNests(a: Literal, u1: Token, u2: Token, eof: Token)
    requires u1.kind in UnaryOperators && u2.kind in UnaryOperators && eof.kind == Eof
    ensures var ts := [u1, u2, LiteralToken(a), eof];
      WellFormed(ts) && ParseExpression(ts, 0) == Parsed(Unary(u1, Unary(u2, Literal(a))), 3)
  {
    var x := Unary(u2, Literal(a));
    var e := Unary(u1, x);
    assert Flatten(x) == [u2, LiteralToken(a)];
    assert Flatten(e) + [eof] == [u1, u2, LiteralToken(a), eof];
    ParseFlatten(e, eof);
  }

  /** `false`, `true` and `nil` become the literals "false", "true" and "null". */
  lemma {:induction false} KeywordLiterals(ts: seq<Token>, pos: nat)
    requires WellFormed(ts) && pos < |ts|
    ensures ts[pos].kind == False ==> ParseUnary(ts, pos) == Parsed(Literal(StringLit("false")), pos + 1)
    ensures ts[pos].kind == True ==> ParseUnary(ts, pos) == Parsed(Literal(StringLit("true")), pos + 1)
    ensures ts[pos].kind == Nil ==> ParseUnary(ts, pos) == Parsed(Literal(StringLit("null")), pos + 1)
  {
    assert ts[pos].kind in [False, True, Nil] ==> ParseUnary(ts, pos) == ParsePrimary(ts, pos);
  }

  /** An error in the leading unary expression is the error of every level. */
  lemma {:induction false} FailureLifts(ts: seq<Token>, pos: nat, level: Level)
    requires WellFormed(ts) && pos < |ts| && ParseUnary(ts, pos).Failed?
    ensures ParseBinary(ts, pos, level) == ParseUnary(ts, pos)
    decreases Rank(level)
  {
    if level != Factor {
      FailureLifts(ts, pos, Tighter(level));
    }
  }

  /** `(a` lacks its ')': the error names the token after `a`. */
  lemma {:induction false} UnclosedGroup(a: Literal, eof: Token)
    requires eof.kind == Eof
    ensures var ts := [OpenParen, LiteralToken(a), eof];
      WellFormed(ts) && ParseExpression(ts, 0) == Failed(ExpectedRightParen(2))
  {
    var ts := [OpenParen, LiteralToken(a), eof];
    assert WellFormed(ts);
    assert ts[1..2] == Flatten(Literal(a));
    assert ParseExpression(ts, 1) == Parsed(Literal(a), 2) by {
      BinaryRoundTrip(ts, 1, 2, Literal(a), Equality);
    }
    assert ParseUnary(ts, 0) == Failed(ExpectedRightParen(2)) by {
      assert ParseUnary(ts, 0) == ParsePrimary(ts, 0);
    }
    FailureLifts(ts, 0, Equality);
  }

  /** A stray ')' is reported where it stands. */
  lemma {:induction false} StrayParen(eof: Token)
    requires eof.kind == Eof
    ensures WellFormed([CloseParen, eof]) && ParseExpression([CloseParen, eof], 0) == Failed(ExpectedExpression(0))
  {
    NoStartExpression([CloseParen, eof], 0);
  }

  // ---------------------------------------------------------------------------
  // The parser

  class Parser {
    const tokens: seq<Token>
    var current: nat

    constructor (tokens: seq<Token>)
      requires WellFormed(tokens)
      ensures this.tokens == tokens && current == 0 && Valid()
    {
      this.tokens := tokens;
      current := 0;
    }

    /** The cursor is on a token of a well-formed list: it never passes the final Eof. */
    predicate Valid()
      reads this
    {
      WellFormed(tokens) && current < |tokens|
    }

    function Peek(): Token
      reads this
      requires Valid()
    {
      tokens[current]
    }

    function Previous(): Token
      reads this
      requires Valid() && current > 0
    {
      tokens[current - 1]
    }

    predicate AtEnd()
      reads this
      requires Valid()
    {
      Peek().kind == Eof
    }

    /** Whether the next token has kind t; never at the end, whatever t is. */
    predicate Check(t: TokenType)
      reads this
      requires Valid()
      ensures Check(t) <==> MatchesAt(tokens, current, [t])
    {
      if AtEnd() then false else Peek().kind == t
    }

    /** Steps over the next token unless it is the final Eof, and returns the token
        before the cursor. */
    method Advance() returns (t: Token)
      requires Valid() && (current > 0 || !AtEnd())
      modifies this`current
      ensures Valid()
      ensures current == if old(AtEnd()) then old(current) else old(current) + 1
      ensures current > 0 && t == tokens[current - 1]
    {
      if !AtEnd() {
        current := current + 1;
      }
      t := Previous();
    }

    /** Steps over the next token exactly when it is not Eof and has one of the kinds. */
    method MatchNext(types: seq<TokenType>) returns (matched: bool)
      requires Valid()
      modifies this`current
      ensures Valid()
      ensures matched == MatchesAt(tokens, old(current), types)
      ensures current == old(current) + (if matched then 1 else 0)
    {
      for i := 0 to |types|
        invariant current == old(current)
        invariant forall j :: 0 <= j < i ==> !Check(types[j])
      {
        if Check(types[i]) {
          var _ := Advance();
          return true;
        }
      }
      return false;
    }

    /** Steps over a token of kind t, or reports that there is none. */
    method Consume(t: TokenType) returns (ok: bool)
      requires Valid()
      modifies this`current
      ensures Valid()
      ensures ok == MatchesAt(tokens, old(current), [t])
      ensures current == old(current) + (if ok then 1 else 0)
    {
      ok := Check(t);
      if ok {
        var _ := Advance();
      }
    }

    method Expression() returns (r: ParseResult)
      requires Valid()
      modifies this`current
      ensures Valid() && r == ParseExpression(tokens, old(current)) && current == Position(r)
      decreases |tokens| - current, 10
    {
      r := Binary(Equality);
    }

    /** equality, comparison, term and factor. */
    method Binary(level: Level) returns (r: ParseResult)
      requires Valid()
      modifies this`current
      ensures Valid() && r == ParseBinary(tokens, old(current), level) && current == Position(r)
      decreases |tokens| - current, 2 * Rank(level) + 1
    {
      r := Operand(level);
      if r.Parsed? {
        r := Rest(level, r.expr);
      }
    }

    /** The `while match_next(..)` loop of a level, with `left` parsed so far. */
    method Rest(level: Level, left: Expr) returns (r: ParseResult)
      requires Valid()
      modifies this`current
      ensures Valid() && r == BinaryRest(tokens, level, left, old(current)) && current == Position(r)
      decreases |tokens| - current, 0
    {
      var expr := left;
      ghost var p := current;
      var matched := MatchNext(Operators(level));
      while matched
        invariant Valid() && old(current) <= p < |tokens|
        invariant BinaryRest(tokens, level, expr, p) == BinaryRest(tokens, level, left, old(current))
        invariant matched == MatchesAt(tokens, p, Operators(level))
        invariant current == p + (if matched then 1 else 0)
        decreases |tokens| - p
      {
        var operator := Previous();
        assert operator == tokens[p] && current == p + 1;
        var right := Operand(level);
        RestStep(tokens, level, expr, p, right);
        if right.Failed? {
          return right;
        }
        expr := Expr.Binary(expr, operator, right.expr);
        p := current;
        matched := MatchNext(Operators(level));
      }
      RestStop(tokens, level, expr, p);
      r := Parsed(expr, current);
    }

    method Operand(level: Level) returns (r: ParseResult)
      requires Valid()
      modifies this`current
      ensures Valid() && r == ParseOperand(tokens, old(current), level) && current == Position(r)
      decreases |tokens| - current, 2 * Rank(level)
    {
      if level == Factor {
        r := Unary();
      } else {
        r := Binary(Tighter(level));
      }
    }

    method Unary() returns (r: ParseResult)
      requires Valid()
      modifies this`current
      ensures Valid() && r == ParseUnary(tokens, old(current)) && current == Position(r)
      decreases |tokens| - current, 1
    {
      var matched := MatchNext(UnaryOperators);
      if matched {
        var operator := Previous();
        var right := Unary();
        if right.Failed? {
          return right;
        }
        return Parsed(Expr.Unary(operator, right.expr), current);
      }
      r := Primary();
    }

    method Primary() returns (r: ParseResult)
      requires Valid()
      modifies this`current
      ensures Valid() && r == ParsePrimary(tokens, old(current)) && current == Position(r)
      decreases |tokens| - current, 0
    {
      var m := MatchNext([False]);
      if m {
        return Parsed(Literal(StringLit("false")), current);
      }
      m := MatchNext([True]);
      if m {
        return Parsed(Literal(StringLit("true")), current);
      }
      m := MatchNext([Nil]);
      if m {
        return Parsed(Literal(StringLit("null")), current);
      }
      m := MatchNext([Number, String]);
      if m {
        return Parsed(Literal(Previous().literal.value), current);
      }
      m := MatchNext([LeftParen]);
      if m {
        var inner := Expression();
        if inner.Failed? {
          return inner;
        }
        var closed := Consume(RightParen);
        if !closed {
          return Failed(ExpectedRightParen(current));
        }
        return Parsed(Grouping(inner.expr), current);
      }
      r := Failed(ExpectedExpression(current));
    }
  }
}
