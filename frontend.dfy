/**
 * The scanner and the parser together: the tokens a successful scan produces
 * are what the parser requires of its input.
 */
module Frontend {
  import opened Decimal
  import opened Tokens
  import L = Lexer
  import P = Parser
  import A = Ast

  /** A scan that ends normally gives a well-formed token list, so the parser applies
      to it, and what it parses from it is sound. */
  lemma {:induction false} ScannedTokensParse(s: string)
    requires L.Scan(s).Scanned?
    ensures P.WellFormed(L.Scan(s).tokens)
    ensures P.Sound(L.Scan(s).tokens, P.ParseExpression(L.Scan(s).tokens, 0), 4)
  {
    L.ScanShape(s);
    var ts := L.Scan(s).tokens;
    forall i | 0 <= i < |ts| && (ts[i].kind == Number || ts[i].kind == String)
      ensures ts[i].literal.Some?
    {
      if i < |ts| - 1 {
        assert L.GoodToken(ts[i]);
      }
    }
    P.ExpressionSound(ts, 0);
  }

  /** Number text is scanned to one token, parsed to one literal, and printed in
      the canonical form of its value. */
  lemma {:induction false} NumberThroughFrontend(n: NumberText)
    ensures L.Scan(n).Scanned? && P.WellFormed(L.Scan(n).tokens)
    ensures P.ParseExpression(L.Scan(n).tokens, 0) == P.Parsed(A.Literal(NumberLit(n)), 1)
    ensures A.AstPrint(A.Literal(NumberLit(n))) == Display(n)
    ensures A.RpnPrint(A.Literal(NumberLit(n))) == Display(n)
  {
    L.ScanNumberAlone(n);
    var ts := L.Scan(n).tokens;
    var e := A.Literal(NumberLit(n));
    assert P.Flatten(e) + [L.EofToken(1)] == ts;
    P.ParseFlatten(e, L.EofToken(1));
  }
}
