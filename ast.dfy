/**
 * The expression tree and its two printers (src/ast.rs).
 *
 * The source's `Visitor<T>` trait becomes a record of four functions, one per
 * variant, and `accept` dispatches on the variant.  Each printer is given by a
 * structural definition (AstPrint, RpnPrint) and by the visitor the source
 * writes (AstVisitor, RpnVisitor); the two are proved to agree.  Both
 * `parenthesize` functions build their text step by step in a loop, and are
 * modelled as methods proved against the structural definitions.
 */
module Ast {
  import opened Decimal
  import opened Tokens

  datatype Expr =
    | Binary(left: Expr, operator: Token, right: Expr)
    | Unary(operator: Token, right: Expr)
    | Grouping(expr: Expr)
    | Literal(value: Literal)

  /** The `Visitor<T>` trait: one method per variant, given that variant's fields. */
  datatype Visitor<T> = Visitor(
    visitBinary: (Expr, Token, Expr) -> T,
    visitUnary: (Token, Expr) -> T,
    visitGrouping: Expr -> T,
    visitLiteral: Literal -> T)

  /** `Expr::accept` */
  function Accept<T>(e: Expr, v: Visitor<T>): T {
    match e
    case Binary(l, op, r) => v.visitBinary(l, op, r)
    case Unary(op, r) => v.visitUnary(op, r)
    case Grouping(x) => v.visitGrouping(x)
    case Literal(lit) => v.visitLiteral(lit)
  }

  /** Accept consults only the method of the node's own variant. */
  lemma {:induction false} AcceptUsesOwnMethod<T>(e: Expr, v: Visitor<T>, w: Visitor<T>)
    requires e.Binary? ==> v.visitBinary == w.visitBinary
    requires e.Unary? ==> v.visitUnary == w.visitUnary
    requires e.Grouping? ==> v.visitGrouping == w.visitGrouping
    requires e.Literal? ==> v.visitLiteral == w.visitLiteral
    ensures Accept(e, v) == Accept(e, w)
  {
    match e
    case Binary(l, op, r) =>
      assert Accept(e, v) == v.visitBinary(l, op, r);
    case Unary(op, r) =>
      assert Accept(e, v) == v.visitUnary(op, r);
    case Grouping(x) =>
      assert Accept(e, v) == v.visitGrouping(x);
    case Literal(lit) =>
      assert Accept(e, v) == v.visitLiteral(lit);
  }

  /** The visitor that rebuilds the node from the fields it is given. */
  function Rebuild(): Visitor<Expr> {
    Visitor((l, op, r) => Binary(l, op, r), (op, r) => Unary(op, r), x => Grouping(x), lit => Literal(lit))
  }

  /** Accept hands the visitor the node's own fields, unchanged. */
  lemma {:induction false} AcceptPassesFields(e: Expr)
    ensures Accept(e, Rebuild()) == e
  {
    match e
    case Binary(l, op, r) =>
      assert Accept(e, Rebuild()) == Rebuild().visitBinary(l, op, r);
    case Unary(op, r) =>
      assert Accept(e, Rebuild()) == Rebuild().visitUnary(op, r);
    case Grouping(x) =>
      assert Accept(e, Rebuild()) == Rebuild().visitGrouping(x);
    case Literal(lit) =>
      assert Accept(e, Rebuild()) == Rebuild().visitLiteral(lit);
  }

  // ---------------------------------------------------------------------------
  // AstPrinter: parenthesised prefix form

  /** acc, then " " and each part in turn. */
  function Spaced(acc: string, parts: seq<string>): string {
    if parts == [] then acc else Spaced(acc, parts[..|parts| - 1]) + " " + parts[|parts| - 1]
  }

  lemma {:induction false} SpacedSnoc(acc: string, parts: seq<string>, p: string)
    ensures Spaced(acc, parts + [p]) == Spaced(acc, parts) + " " + p
  {
    assert (parts + [p])[..|parts|] == parts;
  }

  lemma {:induction false} SpacedPair(acc: string, a: string, b: string)
    ensures Spaced(acc, [a]) == acc + " " + a
    ensures Spaced(acc, [a, b]) == acc + " " + a + " " + b
  {
    SpacedSnoc(acc, [], a);
    assert [] + [a] == [a];
    SpacedSnoc(acc, [a], b);
    assert [a] + [b] == [a, b];
  }

  /** What AstPrinter's parenthesize returns for a name and its children's texts. */
  function AstParen(name: string, parts: seq<string>): string {
    Spaced("(" + name, parts) + ")"
  }

  /** The prefix form: every inner node is "(" + its name + " " + each child + ")". */
  function AstPrint(e: Expr): string {
    match e
    case Binary(l, op, r) => "(" + op.lexeme + " " + AstPrint(l) + " " + AstPrint(r) + ")"
    case Unary(op, r) => "(" + op.lexeme + " " + AstPrint(r) + ")"
    case Grouping(x) => "(" + "group" + " " + AstPrint(x) + ")"
    case Literal(lit) => LiteralText(lit)
  }

  /** AstPrinter's `impl Visitor<String>`.  A visitor record cannot name itself,
      so its methods print the children with AstPrint; AstAcceptRecursive shows
      that this is the source's recursion, where parenthesize calls accept with
      the same printer on each child. */
  function AstVisitor(): Visitor<string> {
    Visitor(
      (l, op: Token, r) => AstParen(op.lexeme, [AstPrint(l), AstPrint(r)]),
      (op: Token, r) => AstParen(op.lexeme, [AstPrint(r)]),
      x => AstParen("group", [AstPrint(x)]),
      lit => LiteralText(lit))
  }

  /** `AstPrinter.print(e)`, which is `e.accept(self)`, is the structural AstPrint. */
  lemma {:induction false} AstPrintIsAccept(e: Expr)
    ensures Accept(e, AstVisitor()) == AstPrint(e)
  {
    match e
    case Binary(l, op, r) =>
      assert Accept(e, AstVisitor()) == AstParen(op.lexeme, [AstPrint(l), AstPrint(r)]);
      SpacedPair("(" + op.lexeme, AstPrint(l), AstPrint(r));
    case Unary(op, r) =>
      assert Accept(e, AstVisitor()) == AstParen(op.lexeme, [AstPrint(r)]);
      SpacedPair("(" + op.lexeme, AstPrint(r), AstPrint(r));
    case Grouping(x) =>
      assert Accept(e, AstVisitor()) == AstParen("group", [AstPrint(x)]);
      SpacedPair("(" + "group", AstPrint(x), AstPrint(x));
    case Literal(lit) =>
      assert Accept(e, AstVisitor()) == AstVisitor().visitLiteral(lit);
  }

  /** The source's recursive equations: each inner node is parenthesize applied to
      its name and to accept of its children with the same visitor. */
  lemma {:induction false} AstAcceptRecursive(l: Expr, op: Token, r: Expr, x: Expr)
    ensures Accept(Binary(l, op, r), AstVisitor()) == AstParen(op.lexeme, [Accept(l, AstVisitor()), Accept(r, AstVisitor())])
    ensures Accept(Unary(op, r), AstVisitor()) == AstParen(op.lexeme, [Accept(r, AstVisitor())])
    ensures Accept(Grouping(x), AstVisitor()) == AstParen("group", [Accept(x, AstVisitor())])
  {
    AstAcceptBinary(l, op, r);
    AstAcceptUnary(op, r);
    AstAcceptGrouping(x);
  }

  lemma {:induction false} AstAcceptBinary(l: Expr, op: Token, r: Expr)
    ensures Accept(Binary(l, op, r), AstVisitor()) == AstParen(op.lexeme, [Accept(l, AstVisitor()), Accept(r, AstVisitor())])
  {
    AstPrintIsAccept(l);
    AstPrintIsAccept(r);
    assert Accept(Binary(l, op, r), AstVisitor()) == AstParen(op.lexeme, [AstPrint(l), AstPrint(r)]);
  }

  lemma {:induction false} AstAcceptUnary(op: Token, r: Expr)
    ensures Accept(Unary(op, r), AstVisitor()) == AstParen(op.lexeme, [Accept(r, AstVisitor())])
  {
    AstPrintIsAccept(r);
    assert Accept(Unary(op, r), AstVisitor()) == AstParen(op.lexeme, [AstPrint(r)]);
  }

  lemma {:induction false} AstAcceptGrouping(x: Expr)
    ensures Accept(Grouping(x), AstVisitor()) == AstParen("group", [Accept(x, AstVisitor())])
  {
    AstPrintIsAccept(x);
    assert Accept(Grouping(x), AstVisitor()) == AstParen("group", [AstPrint(x)]);
  }

  function AstPrints(es: seq<Expr>): (r: seq<string>)
    ensures |r| == |es| && forall i :: 0 <= i < |es| ==> r[i] == AstPrint(es[i])
  {
    if es == [] then [] else AstPrints(es[..|es| - 1]) + [AstPrint(es[|es| - 1])]
  }

  lemma {:induction false} PrintsSnoc(exprs: seq<Expr>, i: nat)
    requires i < |exprs|
    ensures AstPrints(exprs[..i + 1]) == AstPrints(exprs[..i]) + [AstPrint(exprs[i])]
    ensures RpnPrints(exprs[..i + 1]) == RpnPrints(exprs[..i]) + [RpnPrint(exprs[i])]
  {
    assert exprs[..i + 1][..i] == exprs[..i];
  }

  /** AstPrinter's parenthesize: "(", the name, then " " and each child's text, then ")". */
  method AstParenthesize(name: string, exprs: seq<Expr>) returns (s: string)
    ensures s == AstParen(name, AstPrints(exprs))
  {
    s := "";
    s := s + "(";
    s := s + name;
    ghost var open := s;
    assert open == "(" + name;
    for i := 0 to |exprs|
      invariant s == Spaced(open, AstPrints(exprs[..i]))
    {
      var text := Accept(exprs[i], AstVisitor());
      AstPrintIsAccept(exprs[i]);
      PrintsSnoc(exprs, i);
      SpacedSnoc(open, AstPrints(exprs[..i]), text);
      s := s + " ";
      s := s + text;
    }
    s := s + ")";
    assert exprs[..|exprs|] == exprs;
  }

  // ---------------------------------------------------------------------------
  // RpnPrinter: reverse Polish form

  /** acc, then each part in turn followed by " ". */
  function Suffixed(acc: string, parts: seq<string>): string {
    if parts == [] then acc else Suffixed(acc, parts[..|parts| - 1]) + parts[|parts| - 1] + " "
  }

  lemma {:induction false} SuffixedSnoc(acc: string, parts: seq<string>, p: string)
    ensures Suffixed(acc, parts + [p]) == Suffixed(acc, parts) + p + " "
  {
    assert (parts + [p])[..|parts|] == parts;
  }

  lemma {:induction false} SuffixedPair(a: string, b: string)
    ensures Suffixed("", [a]) == a + " "
    ensures Suffixed("", [a, b]) == a + " " + b + " "
  {
    SuffixedSnoc("", [], a);
    assert [] + [a] == [a];
    SuffixedSnoc("", [a], b);
    assert [a] + [b] == [a, b];
  }

  /** What RpnPrinter's parenthesize returns for a name and its children's texts. */
  function RpnParen(name: string, parts: seq<string>): string {
    Suffixed("", parts) + name
  }

  /** The reverse Polish form: each child followed by " ", then the node's name. */
  function RpnPrint(e: Expr): string {
    match e
    case Binary(l, op, r) => RpnPrint(l) + " " + RpnPrint(r) + " " + op.lexeme
    case Unary(op, r) => RpnPrint(r) + " " + op.lexeme
    case Grouping(x) => RpnPrint(x) + " " + "group"
    case Literal(lit) => LiteralText(lit)
  }

  /** RpnPrinter's `impl Visitor<String>`; its children are printed with
      RpnPrint, which RpnAcceptRecursive shows to be accept with this visitor. */
  function RpnVisitor(): Visitor<string> {
    Visitor(
      (l, op: Token, r) => RpnParen(op.lexeme, [RpnPrint(l), RpnPrint(r)]),
      (op: Token, r) => RpnParen(op.lexeme, [RpnPrint(r)]),
      x => RpnParen("group", [RpnPrint(x)]),
      lit => LiteralText(lit))
  }

  /** `RpnPrinter.print(e)`, which is `e.accept(self)`, is the structural RpnPrint. */
  lemma {:induction false} RpnPrintIsAccept(e: Expr)
    ensures Accept(e, RpnVisitor()) == RpnPrint(e)
  {
    match e
    case Binary(l, op, r) =>
      assert Accept(e, RpnVisitor()) == RpnParen(op.lexeme, [RpnPrint(l), RpnPrint(r)]);
      SuffixedPair(RpnPrint(l), RpnPrint(r));
    case Unary(op, r) =>
      assert Accept(e, RpnVisitor()) == RpnParen(op.lexeme, [RpnPrint(r)]);
      SuffixedPair(RpnPrint(r), RpnPrint(r));
    case Grouping(x) =>
      assert Accept(e, RpnVisitor()) == RpnParen("group", [RpnPrint(x)]);
      SuffixedPair(RpnPrint(x), RpnPrint(x));
    case Literal(lit) =>
      assert Accept(e, RpnVisitor()) == RpnVisitor().visitLiteral(lit);
  }

  /** RpnPrinter's recursive equations, as for AstAcceptRecursive. */
  lemma {:induction false} RpnAcceptRecursive(l: Expr, op: Token, r: Expr, x: Expr)
    ensures Accept(Binary(l, op, r), RpnVisitor()) == RpnParen(op.lexeme, [Accept(l, RpnVisitor()), Accept(r, RpnVisitor())])
    ensures Accept(Unary(op, r), RpnVisitor()) == RpnParen(op.lexeme, [Accept(r, RpnVisitor())])
    ensures Accept(Grouping(x), RpnVisitor()) == RpnParen("group", [Accept(x, RpnVisitor())])
  {
    RpnAcceptBinary(l, op, r);
    RpnAcceptUnary(op, r);
    RpnAcceptGrouping(x);
  }

  lemma {:induction false} RpnAcceptBinary(l: Expr, op: Token, r: Expr)
    ensures Accept(Binary(l, op, r), RpnVisitor()) == RpnParen(op.lexeme, [Accept(l, RpnVisitor()), Accept(r, RpnVisitor())])
  {
    RpnPrintIsAccept(l);
    RpnPrintIsAccept(r);
    assert Accept(Binary(l, op, r), RpnVisitor()) == RpnParen(op.lexeme, [RpnPrint(l), RpnPrint(r)]);
  }

  lemma {:induction false} RpnAcceptUnary(op: Token, r: Expr)
    ensures Accept(Unary(op, r), RpnVisitor()) == RpnParen(op.lexeme, [Accept(r, RpnVisitor())])
  {
    RpnPrintIsAccept(r);
    assert Accept(Unary(op, r), RpnVisitor()) == RpnParen(op.lexeme, [RpnPrint(r)]);
  }

  lemma {:induction false} RpnAcceptGrouping(x: Expr)
    ensures Accept(Grouping(x), RpnVisitor()) == RpnParen("group", [Accept(x, RpnVisitor())])
  {
    RpnPrintIsAccept(x);
    assert Accept(Grouping(x), RpnVisitor()) == RpnParen("group", [RpnPrint(x)]);
  }

  function RpnPrints(es: seq<Expr>): (r: seq<string>)
    ensures |r| == |es| && forall i :: 0 <= i < |es| ==> r[i] == RpnPrint(es[i])
  {
    if es == [] then [] else RpnPrints(es[..|es| - 1]) + [RpnPrint(es[|es| - 1])]
  }

  /** RpnPrinter's parenthesize: each child's text followed by " ", then the name. */
  method RpnParenthesize(name: string, exprs: seq<Expr>) returns (s: string)
    ensures s == RpnParen(name, RpnPrints(exprs))
  {
    s := "";
    for i := 0 to |exprs|
      invariant s == Suffixed("", RpnPrints(exprs[..i]))
    {
      var text := Accept(exprs[i], RpnVisitor());
      RpnPrintIsAccept(exprs[i]);
      PrintsSnoc(exprs, i);
      SuffixedSnoc("", RpnPrints(exprs[..i]), text);
      s := s + text;
      s := s + " ";
    }
    s := s + name;
    assert exprs[..|exprs|] == exprs;
  }

  /** A literal prints as its display text, the same in both printers. */
  lemma {:induction false} LiteralTextBoth(lit: Literal)
    ensures AstPrint(Literal(lit)) == RpnPrint(Literal(lit)) == LiteralText(lit)
  {
  }

  // ---------------------------------------------------------------------------
  // The two printers compared

  /** The words of the reverse Polish form: children first, then the node's own name. */
  function PostOrder(e: Expr): (ws: seq<string>)
    ensures |ws| > 0
  {
    match e
    case Binary(l, op, r) => PostOrder(l) + PostOrder(r) + [op.lexeme]
    case Unary(op, r) => PostOrder(r) + [op.lexeme]
    case Grouping(x) => PostOrder(x) + ["group"]
    case Literal(lit) => [LiteralText(lit)]
  }

  /** Words joined with single spaces. */
  function Words(ws: seq<string>): string
    requires |ws| > 0
  {
    if |ws| == 1 then ws[0] else Words(ws[..|ws| - 1]) + " " + ws[|ws| - 1]
  }

  lemma {:induction false} WordsAppend(a: seq<string>, b: seq<string>)
    requires |a| > 0 && |b| > 0
    ensures Words(a + b) == Words(a) + " " + Words(b)
    decreases |b|
  {
    if |b| == 1 {
      assert (a + b)[..|a + b| - 1] == a;
    } else {
      var b' := b[..|b| - 1];
      assert (a + b)[..|a + b| - 1] == a + b';
      WordsAppend(a, b');
    }
  }

  /** The reverse Polish text is the post-order walk of the tree, one space between words. */
  lemma {:induction false} RpnIsPostOrder(e: Expr)
    ensures RpnPrint(e) == Words(PostOrder(e))
  {
    match e
    case Binary(l, op, r) =>
      RpnIsPostOrder(l);
      RpnIsPostOrder(r);
      WordsAppend(PostOrder(l), PostOrder(r));
      WordsAppend(PostOrder(l) + PostOrder(r), [op.lexeme]);
    case Unary(op, r) =>
      RpnIsPostOrder(r);
      WordsAppend(PostOrder(r), [op.lexeme]);
    case Grouping(x) =>
      RpnIsPostOrder(x);
      WordsAppend(PostOrder(x), ["group"]);
    case Literal(lit) =>
  }

  /** The number of nodes that are not literals: each is one pair of parentheses
      in the prefix form. */
  function Inner(e: Expr): nat {
    match e
    case Binary(l, _, r) => 1 + Inner(l) + Inner(r)
    case Unary(_, r) => 1 + Inner(r)
    case Grouping(x) => 1 + Inner(x)
    case Literal(_) => 0
  }

  /** The number of occurrences of c in s. */
  function Count(s: string, c: char): nat {
    if s == [] then 0 else Count(s[..|s| - 1], c) + (if s[|s| - 1] == c then 1 else 0)
  }

  lemma {:induction false} CountAppend(a: string, b: string, c: char)
    ensures Count(a + b, c) == Count(a, c) + Count(b, c)
    decreases |b|
  {
    if b != [] {
      assert (a + b)[..|a + b| - 1] == a + b[..|b| - 1];
      CountAppend(a, b[..|b| - 1], c);
    } else {
      assert a + b == a;
    }
  }

  /** How many times c occurs among n opening and n closing parentheses. */
  function ParenCount(c: char, n: nat): nat {
    if c == '(' || c == ')' then n else 0
  }

  /** Both printers write the same characters, except that the prefix form adds
      one pair of parentheses per inner node. */
  lemma {:induction false} PrintersSameCharacters(e: Expr)
    ensures forall c :: Count(AstPrint(e), c) == Count(RpnPrint(e), c) + ParenCount(c, Inner(e))
    ensures |AstPrint(e)| == |RpnPrint(e)| + 2 * Inner(e)
  {
    forall c | true
      ensures Count(AstPrint(e), c) == Count(RpnPrint(e), c) + ParenCount(c, Inner(e))
    {
      SameCount(e, c);
    }
    SameLength(e);
  }

  lemma {:induction false} SameLength(e: Expr)
    ensures |AstPrint(e)| == |RpnPrint(e)| + 2 * Inner(e)
  {
    match e
    case Binary(l, op, r) =>
      SameLength(l);
      SameLength(r);
    case Unary(op, r) =>
      SameLength(r);
    case Grouping(x) =>
      SameLength(x);
    case Literal(lit) =>
  }

  lemma {:induction false} SameCount(e: Expr, c: char)
    ensures Count(AstPrint(e), c) == Count(RpnPrint(e), c) + ParenCount(c, Inner(e))
  {
    match e
    case Binary(l, op, r) =>
      SameCount(l, c);
      SameCount(r, c);
      CountBinary(l, op, r, c);
    case Unary(op, r) =>
      SameCount(r, c);
      CountUnary(op.lexeme, AstPrint(r), RpnPrint(r), c);
    case Grouping(x) =>
      SameCount(x, c);
      CountUnary("group", AstPrint(x), RpnPrint(x), c);
    case Literal(lit) =>
  }

  /** The counts in "(" + name + " " + a + " " + b + ")" and in a' + " " + b' + " " + name. */
  lemma {:induction false} CountBinary(l: Expr, op: Token, r: Expr, c: char)
    ensures Count(AstPrint(Binary(l, op, r)), c)
      == Count(AstPrint(l), c) + Count(AstPrint(r), c) + Count(op.lexeme, c) + 2 * Count(" ", c) + ParenCount(c, 1)
    ensures Count(RpnPrint(Binary(l, op, r)), c)
      == Count(RpnPrint(l), c) + Count(RpnPrint(r), c) + Count(op.lexeme, c) + 2 * Count(" ", c)
  {
    var n, a, b, a', b' := op.lexeme, AstPrint(l), AstPrint(r), RpnPrint(l), RpnPrint(r);
    CountAppend("(", n, c);
    CountAppend("(" + n, " ", c);
    CountAppend("(" + n + " ", a, c);
    CountAppend("(" + n + " " + a, " ", c);
    CountAppend("(" + n + " " + a + " ", b, c);
    CountAppend("(" + n + " " + a + " " + b, ")", c);
    CountAppend(a', " ", c);
    CountAppend(a' + " ", b', c);
    CountAppend(a' + " " + b', " ", c);
    CountAppend(a' + " " + b' + " ", n, c);
  }

  /** The counts in "(" + name + " " + b + ")" and in b' + " " + name. */
  lemma {:induction false} CountUnary(n: string, b: string, b': string, c: char)
    ensures Count("(" + n + " " + b + ")", c) == Count(b, c) + Count(n, c) + Count(" ", c) + ParenCount(c, 1)
    ensures Count(b' + " " + n, c) == Count(b', c) + Count(n, c) + Count(" ", c)
  {
    CountAppend("(", n, c);
    CountAppend("(" + n, " ", c);
    CountAppend("(" + n + " ", b, c);
    CountAppend("(" + n + " " + b, ")", c);
    CountAppend(b', " ", c);
    CountAppend(b' + " ", n, c);
  }

  // ---------------------------------------------------------------------------
  // The printer test

  /** `-123 * (45.67)` as the test builds it, for the given literals. */
  function TestTree(a: Literal, b: Literal): Expr {
    Binary(Unary(Token(Minus, "-", None, 1), Literal(a)), Token(Star, "*", None, 1), Grouping(Literal(b)))
  }

  /** The printer test: with the test's numbers, 123. and 45.67 (the texts
      "123" and "45.67"), both printers give the expected text. */
  lemma {:induction false} TestPrints()
    ensures Join("123", "") == "123" && Join("45", "67") == "45.67"
    ensures AstPrint(TestTree(NumberLit(Join("123", "")), NumberLit(Join("45", "67")))) == "(* (- 123) (group 45.67))"
    ensures RpnPrint(TestTree(NumberLit(Join("123", "")), NumberLit(Join("45", "67")))) == "123 - 45.67 group *"
  {
    TestInteger();
    TestFraction();
    TestPrintsWith(NumberLit(Join("123", "")), NumberLit(Join("45", "67")));
  }

  lemma {:induction false} TestPrintsWith(a: Literal, b: Literal)
    requires LiteralText(a) == "123" && LiteralText(b) == "45.67"
    ensures AstPrint(TestTree(a, b)) == "(* (- 123) (group 45.67))"
    ensures RpnPrint(TestTree(a, b)) == "123 - 45.67 group *"
  {
    TestAst(a, b);
    TestRpn(a, b);
  }

  lemma {:induction false} TestAst(a: Literal, b: Literal)
    requires LiteralText(a) == "123" && LiteralText(b) == "45.67"
    ensures AstPrint(TestTree(a, b)) == "(* (- 123) (group 45.67))"
  {
    var e := TestTree(a, b);
    assert AstPrint(e.left) == "(" + "-" + " " + "123" + ")";
    assert AstPrint(e.right) == "(" + "group" + " " + "45.67" + ")";
    AstTexts();
  }

  lemma {:induction false} AstTexts()
    ensures "(" + "-" + " " + "123" + ")" == "(- 123)"
    ensures "(" + "group" + " " + "45.67" + ")" == "(group 45.67)"
    ensures "(" + "*" + " " + "(- 123)" + " " + "(group 45.67)" + ")" == "(* (- 123) (group 45.67))"
  {
  }

  lemma {:induction false} TestRpn(a: Literal, b: Literal)
    requires LiteralText(a) == "123" && LiteralText(b) == "45.67"
    ensures RpnPrint(TestTree(a, b)) == "123 - 45.67 group *"
  {
    var e := TestTree(a, b);
    assert RpnPrint(e.left) == "123" + " " + "-";
    assert RpnPrint(e.right) == "45.67" + " " + "group";
    RpnTexts();
  }

  lemma {:induction false} RpnTexts()
    ensures "123" + " " + "-" == "123 -"
    ensures "45.67" + " " + "group" == "45.67 group"
    ensures "123 -" + " " + "45.67 group" + " " + "*" == "123 - 45.67 group *"
  {
  }

  /** 123. displays as "123". */
  lemma {:induction false} TestInteger()
    ensures Join("123", "") == "123" && LiteralText(NumberLit(Join("123", ""))) == "123"
  {
    DisplayOfCanonical(Join("123", ""));
  }

  /** 45.67 displays as "45.67". */
  lemma {:induction false} TestFraction()
    ensures Join("45", "67") == "45.67" && LiteralText(NumberLit(Join("45", "67"))) == "45.67"
  {
    assert "45" + "." + "67" == "45.67";
    DisplayOfCanonical(Join("45", "67"));
  }
}
