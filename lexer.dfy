/**
 * The scanner (src/lexer.rs).
 *
 * The first half of the module is a reference definition of what one scan
 * step and a whole scan produce (ScanToken, ScanFrom, Scan), with the
 * properties the scanner promises proved about it.  The second half is the
 * scanner itself, class Lexer, whose cursor fields the methods update as in
 * the source; each method is proved to do what the reference definition says.
 */
module Lexer {
  import opened Decimal
  import opened Tokens

  // ---------------------------------------------------------------------------
  // Character classes and the keyword table

  /** `c.is_alphabetic() || c == '_'`, for ASCII characters. */
  predicate IsAlpha(c: char) {
    ('a' <= c <= 'z') || ('A' <= c <= 'Z') || c == '_'
  }

  predicate IsAlphaNum(c: char) {
    IsDigit(c) || IsAlpha(c)
  }

  predicate NotNewline(c: char) {
    c != '\n'
  }

  predicate NotQuote(c: char) {
    c != '"'
  }

  /** The reserved words and the kinds they scan as. */
  const Keywords: map<string, TokenType> := map[
    "and" := And, "class" := Class, "else" := Else, "false" := False,
    "fun" := Fun, "for" := For, "if" := If, "nil" := Nil,
    "or" := Or, "print" := Print, "return" := Return, "super" := Super,
    "this" := This, "true" := True, "var" := Var, "while" := While]

  /** The kind of an identifier-shaped word: its keyword, or Identifier. */
  function WordKind(text: string): TokenType {
    if text in Keywords then Keywords[text] else Identifier
  }

  /** Every reserved word scans as a keyword kind. */
  lemma {:induction false} KeywordsAreKeywords(w: string)
    ensures w in Keywords ==> Keywords[w] in KeywordKinds
  {
    assert KeywordKinds == [And, Class, Else, False, Fun, For, If, Nil, Or, Print, Return, Super, This, True, Var, While];
  }

  /** A word never scans as Eof, Number or String. */
  lemma {:induction false} WordKindIsWord(w: string)
    ensures WordKind(w) !in {Eof, Number, String}
  {
  }

  /** The single-character tokens other than the comparison operators and '/'. */
  function PunctuationKind(c: char): Option<TokenType> {
    match c
    case '(' => Some(LeftParen)
    case ')' => Some(RightParen)
    case '{' => Some(LeftBrace)
    case '}' => Some(RightBrace)
    case ',' => Some(Comma)
    case '.' => Some(Dot)
    case '-' => Some(Minus)
    case '+' => Some(Plus)
    case ';' => Some(Semicolon)
    case '*' => Some(Star)
    case _ => None
  }

  /** For '!', '=', '>' and '<': the kind alone and the kind when '=' follows. */
  function OperatorKinds(c: char): Option<(TokenType, TokenType)> {
    match c
    case '!' => Some((Bang, BangEqual))
    case '=' => Some((Equal, EqualEqual))
    case '>' => Some((Greater, GreaterEqual))
    case '<' => Some((Less, LessEqual))
    case _ => None
  }

  // ---------------------------------------------------------------------------
  // Reference definition of scanning

  /** The end of the longest run of characters satisfying p that starts at i. */
  function RunEnd(s: string, i: nat, p: char -> bool): (j: nat)
    requires i <= |s|
    ensures i <= j <= |s|
    ensures forall k :: i <= k < j ==> p(s[k])
    ensures j == |s| || !p(s[j])
    decreases |s| - i
  {
    if i < |s| && p(s[i]) then RunEnd(s, i + 1, p) else i
  }

  /** The number of newlines in s[i..j]. */
  function Newlines(s: string, i: nat, j: nat): nat
    requires i <= j <= |s|
    decreases j
  {
    if j == i then 0 else Newlines(s, i, j - 1) + (if s[j - 1] == '\n' then 1 else 0)
  }

  /** Where a number that starts with the digit before i ends: the digit run, and
      a fraction only when a '.' is followed by a digit. */
  function NumberEnd(s: string, i: nat): (j: nat)
    requires i <= |s|
    ensures i <= j <= |s|
    ensures j == |s| || !IsDigit(s[j])
    ensures forall k :: i <= k < j ==> IsDigit(s[k]) || (s[k] == '.' && k + 1 < j && IsDigit(s[k + 1]))
    ensures (forall k :: i <= k < j ==> IsDigit(s[k])) ==> !(j + 1 < |s| && s[j] == '.' && IsDigit(s[j + 1]))
    ensures forall k, m :: i <= k < m < j && s[k] == '.' ==> s[m] != '.'
  {
    var d := RunEnd(s, i, IsDigit);
    if d + 1 < |s| && s[d] == '.' && IsDigit(s[d + 1]) then RunEnd(s, d + 1, IsDigit) else d
  }

  /** The outcome of one scan step from `start`. */
  datatype Step =
    | Lexed(next: nat, line: nat, token: Option<Token>, bad: bool)
    | Unterminated(line: nat)   // a string literal runs to the end of the source

  /** What every scan step guarantees: it consumes at least one character, the
      line advances by the newlines consumed, and a token it emits covers exactly
      the consumed text, carries the step's line and the literal its kind calls for. */
  predicate GoodStep(s: string, start: nat, line: nat, st: Step)
    requires start < |s|
  {
    match st
    case Unterminated(l) => l == line + Newlines(s, start, |s|)
    case Lexed(next, l, tok, _) =>
      && start < next <= |s|
      && l == line + Newlines(s, start, next)
      && (tok.Some? ==> tok.value.lexeme == s[start..next] && tok.value.line == l && GoodToken(tok.value))
  }

  /** A scanned token: never Eof, and it carries a literal exactly when it is a
      Number (its own text) or a String (its text inside the quotes). */
  predicate GoodToken(t: Token) {
    && t.kind != Eof
    && (t.kind == Number ==> t.literal.Some? && t.literal.value.NumberLit? && t.literal.value.number == t.lexeme)
    && (t.kind == String ==>
          t.literal.Some? && t.literal.value.StringLit? && t.lexeme == "\"" + t.literal.value.text + "\"")
    && (t.kind != Number && t.kind != String ==> t.literal.None?)
  }

  function Emit(s: string, start: nat, next: nat, line: nat, kind: TokenType, literal: Option<Literal>): Step
    requires start <= next <= |s|
  {
    Lexed(next, line, Some(Token(kind, s[start..next], literal, line)), false)
  }

  function Skip(next: nat, line: nat): Step {
    Lexed(next, line, None, false)
  }

  /** '!', '=', '>' or '<', and the two-character form when '=' follows. */
  function ScanOperator(s: string, start: nat, line: nat, one: TokenType, two: TokenType): Step
    requires start < |s|
  {
    if start + 1 < |s| && s[start + 1] == '=' then
      Emit(s, start, start + 2, line, two, None)
    else
      Emit(s, start, start + 1, line, one, None)
  }

  /** '/' alone, or a comment running up to (not including) the next newline. */
  function ScanSlash(s: string, start: nat, line: nat): Step
    requires start < |s|
  {
    if start + 1 < |s| && s[start + 1] == '/' then
      Skip(RunEnd(s, start + 2, NotNewline), line)
    else
      Emit(s, start, start + 1, line, Slash, None)
  }

  /** A string literal: everything up to the next '"', newlines included. */
  function ScanString(s: string, start: nat, line: nat): Step
    requires start < |s|
  {
    var e := RunEnd(s, start + 1, NotQuote);
    var l := line + Newlines(s, start + 1, e);
    if e == |s| then
      Unterminated(l)
    else
      Emit(s, start, e + 1, l, String, Some(StringLit(s[start + 1..e])))
  }

  /** A number: digits, then a fraction only when a '.' is followed by a digit. */
  function ScanNumber(s: string, start: nat, line: nat): Step
    requires start < |s| && IsDigit(s[start])
  {
    Emit(s, start, NumberEnd(s, start + 1), line, Number, Some(NumberLiteral(s, start)))
  }

  /** The literal of the number that starts at `start`: `parse().unwrap()` cannot fail. */
  function NumberLiteral(s: string, start: nat): Literal
    requires start < |s| && IsDigit(s[start])
  {
    NumberEndIsNumberText(s, start);
    NumberLit(s[start..NumberEnd(s, start + 1)])
  }

  /** An identifier or keyword: the longest run of letters, digits and '_'. */
  function ScanWord(s: string, start: nat, line: nat): Step
    requires start < |s|
  {
    var e := RunEnd(s, start + 1, IsAlphaNum);
    Emit(s, start, e, line, WordKind(s[start..e]), None)
  }

  /** lex_token, from `start` at line `line`.  Every step makes progress. */
  function ScanToken(s: string, start: nat, line: nat): (st: Step)
    requires start < |s|
    ensures st.Lexed? ==> start < st.next <= |s|
  {
    var c := s[start];
    if PunctuationKind(c).Some? then
      Emit(s, start, start + 1, line, PunctuationKind(c).value, None)
    else if OperatorKinds(c).Some? then
      ScanOperator(s, start, line, OperatorKinds(c).value.0, OperatorKinds(c).value.1)
    else if c == '/' then
      ScanSlash(s, start, line)
    else if c == ' ' || c == '\r' || c == '\t' then
      Skip(start + 1, line)
    else if c == '\n' then
      Skip(start + 1, line + 1)
    else if c == '"' then
      ScanString(s, start, line)
    else if IsDigit(c) then
      ScanNumber(s, start, line)
    else if IsAlpha(c) then
      ScanWord(s, start, line)
    else
      Lexed(start + 1, line, None, true)
  }

  // ---------------------------------------------------------------------------
  // What one step guarantees

  lemma {:induction false} OperatorStep(s: string, start: nat, line: nat, one: TokenType, two: TokenType)
    requires start < |s| && s[start] != '\n'
    requires one !in {Eof, Number, String} && two !in {Eof, Number, String}
    ensures GoodStep(s, start, line, ScanOperator(s, start, line, one, two))
    ensures var st := ScanOperator(s, start, line, one, two);
      && st.Lexed? && !st.bad && st.token.Some?
      && st.token.value.kind == (if start + 1 < |s| && s[start + 1] == '=' then two else one)
      && st.next == start + (if start + 1 < |s| && s[start + 1] == '=' then 2 else 1)
  {
    if start + 1 < |s| && s[start + 1] == '=' {
      NewlinesFree(s, start, start + 2);
      assert ScanOperator(s, start, line, one, two) == Emit(s, start, start + 2, line, two, None);
    } else {
      NewlinesFree(s, start, start + 1);
      assert ScanOperator(s, start, line, one, two) == Emit(s, start, start + 1, line, one, None);
    }
  }

  lemma {:induction false} SlashStep(s: string, start: nat, line: nat)
    requires start < |s| && s[start] == '/'
    ensures var st := ScanSlash(s, start, line);
      && GoodStep(s, start, line, st)
      && st.Lexed? && !st.bad
      && (st.token.None? <==> start + 1 < |s| && s[start + 1] == '/')
      && (st.token.None? ==> st.next == |s| || s[st.next] == '\n')
      && (st.token.Some? ==> st.token.value.kind == Slash && st.next == start + 1)
      && (st.token.None? ==> st.line == line && forall k :: start <= k < st.next ==> s[k] != '\n')
  {
    if start + 1 < |s| && s[start + 1] == '/' {
      NewlinesFree(s, start, RunEnd(s, start + 2, NotNewline));
    } else {
      NewlinesFree(s, start, start + 1);
    }
  }

  lemma {:induction false} StringStep(s: string, start: nat, line: nat)
    requires start < |s| && s[start] == '"'
    ensures var st := ScanString(s, start, line);
      && GoodStep(s, start, line, st)
      && (st.Lexed? ==> !st.bad && st.token.Some? && st.token.value.kind == String)
  {
    var e := RunEnd(s, start + 1, NotQuote);
    NewlinesQuoted(s, start, e);
    if e < |s| {
      assert s[start..e + 1] == [s[start]] + s[start + 1..e] + [s[e]];
    }
  }

  /** ScanString once the closing quote, or the end, is found at e. */
  lemma {:induction false} StringAt(s: string, start: nat, line: nat, e: nat, l: nat)
    requires start < |s| && e == RunEnd(s, start + 1, NotQuote) && l == line + Newlines(s, start + 1, e)
    ensures ScanString(s, start, line) ==
      if e == |s| then Unterminated(l) else Emit(s, start, e + 1, l, String, Some(StringLit(s[start + 1..e])))
  {
  }

  /** A string runs to the first quote after the opening one; with none, it is unterminated. */
  lemma {:induction false} StringEnds(s: string, start: nat, line: nat)
    requires start < |s| && s[start] == '"'
    ensures var st := ScanString(s, start, line);
      && (st.Unterminated? <==> forall k :: start < k < |s| ==> s[k] != '"')
      && (st.Lexed? ==> s[st.next - 1] == '"' && forall k :: start < k < st.next - 1 ==> s[k] != '"')
  {
    var e := RunEnd(s, start + 1, NotQuote);
    if e < |s| {
      assert !NotQuote(s[e]);
    } else {
      assert forall k :: start < k < |s| ==> NotQuote(s[k]);
    }
  }

  lemma {:induction false} NumberStep(s: string, start: nat, line: nat)
    requires start < |s| && IsDigit(s[start])
    ensures var st := ScanNumber(s, start, line);
      && GoodStep(s, start, line, st)
      && st.Lexed? && !st.bad && st.token.Some? && st.token.value.kind == Number
      && st.next == NumberEnd(s, start + 1)
  {
    NumberEndFree(s, start);
  }

  lemma {:induction false} WordStep(s: string, start: nat, line: nat)
    requires start < |s| && IsAlpha(s[start])
    ensures var st := ScanWord(s, start, line);
      && GoodStep(s, start, line, st)
      && st.Lexed? && !st.bad && st.token.Some?
      && st.token.value.kind == WordKind(s[start..st.next])
      && (forall k :: start <= k < st.next ==> IsAlphaNum(s[k]))
      && (st.next == |s| || !IsAlphaNum(s[st.next]))
  {
    var e := RunEnd(s, start + 1, IsAlphaNum);
    NewlinesFree(s, start, e);
    WordKindIsWord(s[start..e]);
  }

  /** Every step of the scan is a good step, and a step that reports an
      unexpected character emits nothing and consumes only that character. */
  lemma {:induction false} ScanTokenGood(s: string, start: nat, line: nat)
    requires start < |s|
    ensures GoodStep(s, start, line, ScanToken(s, start, line))
    ensures ScanToken(s, start, line).Lexed? && ScanToken(s, start, line).bad ==>
      ScanToken(s, start, line).token.None? && ScanToken(s, start, line).next == start + 1
  {
    var c := s[start];
    if PunctuationKind(c).Some? {
      NewlinesFree(s, start, start + 1);
    } else if OperatorKinds(c).Some? {
      OperatorStep(s, start, line, OperatorKinds(c).value.0, OperatorKinds(c).value.1);
    } else if c == '/' {
      SlashStep(s, start, line);
    } else if c == '"' {
      StringStep(s, start, line);
    } else if IsDigit(c) {
      NumberStep(s, start, line);
    } else if IsAlpha(c) {
      WordStep(s, start, line);
    } else if c != '\n' {
      NewlinesFree(s, start, start + 1);
    }
  }

  datatype ScanResult =
    | Scanned(tokens: seq<Token>, errored: bool)
    | UnterminatedString(line: nat)   // the source panics slicing past the end

  /** Puts what earlier steps produced in front of the result of the rest. */
  function Prefix(ts: seq<Token>, errored: bool, r: ScanResult): ScanResult {
    match r
    case UnterminatedString(_) => r
    case Scanned(rest, e) => Scanned(ts + rest, errored || e)
  }

  function OptionSeq(t: Option<Token>): seq<Token> {
    if t.Some? then [t.value] else []
  }

  function EofToken(line: nat): Token {
    Token(Eof, "", None, line)
  }

  /** The tokens scanned from position i at line `line` to the end. */
  function ScanFrom(s: string, i: nat, line: nat): (r: ScanResult)
    requires i <= |s|
    decreases |s| - i
  {
    if i == |s| then Scanned([EofToken(line)], false)
    else
      match ScanToken(s, i, line)
      case Unterminated(l) => UnterminatedString(l)
      case Lexed(next, l, tok, bad) => Prefix(OptionSeq(tok), bad, ScanFrom(s, next, l))
  }

  /** lex_tokens on a fresh lexer. */
  function Scan(s: string): ScanResult {
    ScanFrom(s, 0, 1)
  }

  // ---------------------------------------------------------------------------
  // Properties of a whole scan

  predicate LinesInOrder(ts: seq<Token>) {
    forall j, k :: 0 <= j <= k < |ts| ==> ts[j].line <= ts[k].line
  }

  /** What scanning from i at line `line` yields: well-formed tokens in line order,
      then the one Eof token, at the line reached at the end of the source.  A scan
      cut short by an unterminated string has reached that line too. */
  predicate GoodScan(s: string, i: nat, line: nat, r: ScanResult)
    requires i <= |s|
  {
    match r
    case UnterminatedString(l) => l == line + Newlines(s, i, |s|)
    case Scanned(ts, _) =>
      && |ts| > 0 && ts[|ts| - 1] == EofToken(line + Newlines(s, i, |s|))
      && (forall k :: 0 <= k < |ts| - 1 ==> GoodToken(ts[k]))
      && (forall k :: 0 <= k < |ts| ==> line <= ts[k].line)
      && LinesInOrder(ts)
  }

  lemma {:induction false} ScanFromShape(s: string, i: nat, line: nat)
    requires i <= |s|
    ensures GoodScan(s, i, line, ScanFrom(s, i, line))
    decreases |s| - i
  {
    if i < |s| {
      var st := ScanToken(s, i, line);
      ScanTokenGood(s, i, line);
      if st.Lexed? {
        ScanFromShape(s, st.next, st.line);
        ShapePrepend(s, i, line, st, ScanFrom(s, st.next, st.line));
      }
    }
  }

  /** A good step in front of a good scan of the rest is a good scan. */
  lemma {:induction false} ShapePrepend(s: string, i: nat, line: nat, st: Step, rest: ScanResult)
    requires i < |s| && st.Lexed? && i < st.next <= |s| && st.line == line + Newlines(s, i, st.next)
    requires st.token.Some? ==> st.token.value.line == st.line && GoodToken(st.token.value)
    requires GoodScan(s, st.next, st.line, rest)
    ensures GoodScan(s, i, line, Prefix(OptionSeq(st.token), st.bad, rest))
  {
    NewlinesSplit(s, i, st.next, |s|);
    assert line + Newlines(s, i, |s|) == st.line + Newlines(s, st.next, |s|);
    match rest
    case UnterminatedString(_) =>
    case Scanned(ts, _) =>
      PrependTokens(st.token, ts, line, st.line);
  }

  lemma {:induction false} PrependTokens(t: Option<Token>, rest: seq<Token>, line: nat, l: nat)
    requires line <= l && (t.Some? ==> t.value.line == l && GoodToken(t.value))
    requires |rest| > 0 && forall k :: 0 <= k < |rest| - 1 ==> GoodToken(rest[k])
    requires forall k :: 0 <= k < |rest| ==> l <= rest[k].line
    requires LinesInOrder(rest)
    ensures var ts := OptionSeq(t) + rest;
      && ts[|ts| - 1] == rest[|rest| - 1]
      && (forall k :: 0 <= k < |ts| - 1 ==> GoodToken(ts[k]))
      && (forall k :: 0 <= k < |ts| ==> line <= ts[k].line)
      && LinesInOrder(ts)
  {
    if t.Some? {
      var ts := [t.value] + rest;
      forall k | 0 < k < |ts| ensures ts[k] == rest[k - 1] { }
    }
  }

  /** The token list of a scan ends in its only Eof token, whose line is one more
      than the number of newlines in the source. */
  lemma {:induction false} ScanShape(s: string)
    ensures GoodScan(s, 0, 1, Scan(s))
    ensures Scan(s).Scanned? ==> Scan(s).tokens[|Scan(s).tokens| - 1] == EofToken(1 + Newlines(s, 0, |s|))
    ensures Scan(s).Scanned? ==> forall k :: 0 <= k < |Scan(s).tokens| - 1 ==> Scan(s).tokens[k].kind != Eof
  {
    ScanFromShape(s, 0, 1);
  }

  // ---------------------------------------------------------------------------
  // Scanning small sources

  /** A single-character punctuation token, at any position: one character, its
      kind, no literal. */
  lemma {:induction false} PunctuationStep(s: string, start: nat, line: nat)
    requires start < |s| && PunctuationKind(s[start]).Some?
    ensures ScanToken(s, start, line)
      == Lexed(start + 1, line, Some(Token(PunctuationKind(s[start]).value, [s[start]], None, line)), false)
  {
    assert s[start..start + 1] == [s[start]];
  }

  /** A punctuation character alone scans to its token, then Eof. */
  lemma {:induction false} ScanPunctuation(c: char)
    requires PunctuationKind(c).Some?
    ensures Scan([c]) == Scanned([Token(PunctuationKind(c).value, [c], None, 1), EofToken(1)], false)
  {
    PunctuationStep([c], 0, 1);
    ScanOne([c], Token(PunctuationKind(c).value, [c], None, 1), 1);
  }

  /** An unexpected character, anywhere: no token, the error flag set, and the
      scan goes on with the next character on the same line. */
  lemma {:induction false} UnexpectedFrom(s: string, i: nat, line: nat)
    requires i < |s|
    requires PunctuationKind(s[i]).None? && OperatorKinds(s[i]).None? && s[i] !in "/ \r\t\n\""
    requires !IsDigit(s[i]) && !IsAlpha(s[i])
    ensures ScanFrom(s, i, line) == Prefix([], true, ScanFrom(s, i + 1, line))
  {
    assert ScanToken(s, i, line) == Lexed(i + 1, line, None, true);
  }

  lemma {:induction false} ScanUnexpected(c: char)
    requires PunctuationKind(c).None? && OperatorKinds(c).None? && c !in "/ \r\t\n\""
    requires !IsDigit(c) && !IsAlpha(c)
    ensures Scan([c]) == Scanned([EofToken(1)], true)
  {
    var s := [c];
    assert ScanToken(s, 0, 1) == Lexed(1, 1, None, true);
    assert ScanFrom(s, 1, 1) == Scanned([EofToken(1)], false);
    assert Scan(s) == Prefix([], true, ScanFrom(s, 1, 1));
  }

  /** A source whose first step consumes it all as one token. */
  lemma {:induction false} ScanOne(s: string, t: Token, l: nat)
    requires 0 < |s| && ScanToken(s, 0, 1) == Lexed(|s|, l, Some(t), false)
    ensures Scan(s) == Scanned([t, EofToken(l)], false)
  {
    assert Scan(s) == Prefix([t], false, ScanFrom(s, |s|, l));
  }

  /** '!', '=', '>' and '<' scan alone, and as one two-character token before '='. */
  lemma {:induction false} ScanOperatorPair(c: char, one: TokenType, two: TokenType)
    requires OperatorKinds(c) == Some((one, two))
    ensures Scan([c]) == Scanned([Token(one, [c], None, 1), EofToken(1)], false)
    ensures Scan([c, '=']) == Scanned([Token(two, [c, '='], None, 1), EofToken(1)], false)
  {
    var s := [c, '='];
    assert s[0..2] == s;
    ScanOne(s, Token(two, s, None, 1), 1);
    var s1 := [c];
    assert s1[0..1] == s1;
    ScanOne(s1, Token(one, s1, None, 1), 1);
  }

  /** A word scans as one token: its keyword kind if it is reserved, else Identifier. */
  lemma {:induction false} ScanWordAlone(w: string)
    requires |w| > 0 && IsAlpha(w[0]) && forall k :: 0 <= k < |w| ==> IsAlphaNum(w[k])
    ensures Scan(w) == Scanned([Token(WordKind(w), w, None, 1), EofToken(1)], false)
  {
    RunEndIs(w, 1, |w|, IsAlphaNum);
    assert w[0..|w|] == w;
    ScanOne(w, Token(WordKind(w), w, None, 1), 1);
  }

  /** Number text scans back as one Number token holding that text. */
  lemma {:induction false} ScanNumberAlone(n: NumberText)
    ensures Scan(n) == Scanned([Token(Number, n, Some(NumberLit(n)), 1), EofToken(1)], false)
  {
    var d := DotIndex(n);
    assert IsDigit(n[0]) by {
      assert n[0] == n[..d][0];
    }
    RunEndIs(n, 1, d, IsDigit);
    if d < |n| {
      RunEndIs(n, d + 1, |n|, IsDigit);
      NumberEndFraction(n, 1, d);
    } else {
      NumberEndInteger(n, 1, d);
    }
    assert n[0..|n|] == n;
    assert ScanNumber(n, 0, 1) == Lexed(|n|, 1, Some(Token(Number, n, Some(NumberLit(n)), 1)), false);
    DigitToken(n, 0, 1);
    ScanOne(n, Token(Number, n, Some(NumberLit(n)), 1), 1);
  }

  /** A digit starts a number. */
  lemma {:induction false} DigitToken(s: string, start: nat, line: nat)
    requires start < |s| && IsDigit(s[start])
    ensures ScanToken(s, start, line) == ScanNumber(s, start, line)
  {
  }

  /** A '.' with no digit after it is not part of the number: "1." is 1 then Dot. */
  lemma {:induction false} ScanNumberDot(n: NumberText)
    requires AllDigits(n)
    ensures Scan(n + ".") == Scanned([Token(Number, n, Some(NumberLit(n)), 1), Token(Dot, ".", None, 1), EofToken(1)], false)
  {
    var s := n + ".";
    RunEndIs(s, 1, |n|, IsDigit);
    assert NumberEnd(s, 1) == |n|;
    assert s[0..|n|] == n;
    assert s[|n|..|n| + 1] == ".";
    var t := Token(Number, n, Some(NumberLit(n)), 1);
    var dot := Token(Dot, ".", None, 1);
    assert ScanToken(s, 0, 1) == Lexed(|n|, 1, Some(t), false);
    assert ScanToken(s, |n|, 1) == Lexed(|s|, 1, Some(dot), false);
    assert ScanFrom(s, |n|, 1) == Prefix([dot], false, ScanFrom(s, |s|, 1));
    assert Scan(s) == Prefix([t], false, ScanFrom(s, |n|, 1));
  }

  /** A comment yields no token. */
  lemma {:induction false} ScanComment(c: string)
    requires forall k :: 0 <= k < |c| ==> c[k] != '\n'
    ensures Scan("//" + c) == Scanned([EofToken(1)], false)
  {
    var s := "//" + c;
    RunEndIs(s, 2, |s|, NotNewline);
    assert ScanToken(s, 0, 1) == Lexed(|s|, 1, None, false);
    assert Scan(s) == Prefix([], false, ScanFrom(s, |s|, 1));
  }

  /** A string literal is one token whose literal is the text between the quotes;
      its line is the line it ends on. */
  lemma {:induction false} ScanStringLiteral(s: string)
    requires 2 <= |s| && s[0] == '"' && s[|s| - 1] == '"'
    requires forall k :: 0 < k < |s| - 1 ==> s[k] != '"'
    ensures var l := 1 + Newlines(s, 0, |s|);
      Scan(s) == Scanned([Token(String, s, Some(StringLit(s[1..|s| - 1])), l), EofToken(l)], false)
  {
    var l := 1 + Newlines(s, 0, |s|);
    StringAlone(s);
    ScanOne(s, Token(String, s, Some(StringLit(s[1..|s| - 1])), l), l);
  }

  lemma {:induction false} StringAlone(s: string)
    requires 2 <= |s| && s[0] == '"' && s[|s| - 1] == '"'
    requires forall k :: 0 < k < |s| - 1 ==> s[k] != '"'
    ensures var l := 1 + Newlines(s, 0, |s|);
      ScanToken(s, 0, 1) == Lexed(|s|, l, Some(Token(String, s, Some(StringLit(s[1..|s| - 1])), l)), false)
  {
    RunEndIs(s, 1, |s| - 1, NotQuote);
    assert s[0..|s|] == s;
    NewlinesQuoted(s, 0, |s| - 1);
  }

  /** A quote that is never closed ends the scan, where the source panics. */
  lemma {:induction false} ScanUnterminated(s: string)
    requires |s| > 0 && s[0] == '"' && forall k :: 0 < k < |s| ==> s[k] != '"'
    ensures Scan(s).UnterminatedString?
  {
    RunEndIs(s, 1, |s|, NotQuote);
    assert ScanToken(s, 0, 1).Unterminated?;
  }

  predicate IsBlank(c: char) {
    c == ' ' || c == '\r' || c == '\t' || c == '\n'
  }

  lemma {:induction false} ScanBlanksFrom(s: string, i: nat, line: nat)
    requires i <= |s| && forall k :: i <= k < |s| ==> IsBlank(s[k])
    ensures ScanFrom(s, i, line) == Scanned([EofToken(line + Newlines(s, i, |s|))], false)
    decreases |s| - i
  {
    if i < |s| {
      var l := line + (if s[i] == '\n' then 1 else 0);
      assert ScanToken(s, i, line) == Lexed(i + 1, l, None, false);
      ScanBlanksFrom(s, i + 1, l);
      NewlinesSplit(s, i, i + 1, |s|);
    }
  }

  /** A blank, anywhere, is skipped: no token, one character, and one more line
      exactly when it is a newline. */
  lemma {:induction false} BlankStep(s: string, start: nat, line: nat)
    requires start < |s| && IsBlank(s[start])
    ensures ScanToken(s, start, line) == Lexed(start + 1, line + (if s[start] == '\n' then 1 else 0), None, false)
  {
  }

  /** Blanks and newlines yield only Eof, on the line after the last newline. */
  lemma {:induction false} ScanBlanks(s: string, l: nat)
    requires forall k :: 0 <= k < |s| ==> IsBlank(s[k])
    requires l == 1 + Newlines(s, 0, |s|)
    ensures Scan(s) == Scanned([EofToken(l)], false)
  {
    var r := ScanFrom(s, 0, 1);
    assert r == Scanned([EofToken(l)], false) by {
      ScanBlanksFrom(s, 0, 1);
    }
    assert Scan(s) == r;
  }

  // ---------------------------------------------------------------------------
  // Helper facts for ScanToken's contract

  lemma {:induction false} NewlinesSplit(s: string, i: nat, m: nat, j: nat)
    requires i <= m <= j <= |s|
    ensures Newlines(s, i, j) == Newlines(s, i, m) + Newlines(s, m, j)
    decreases j
  {
    if j > m {
      NewlinesSplit(s, i, m, j - 1);
    }
  }

  lemma {:induction false} NewlinesFree(s: string, i: nat, j: nat)
    requires i < j <= |s| && s[i] != '\n'
    requires forall k :: i < k < j ==> s[k] != '\n'
    ensures Newlines(s, i, j) == 0
    decreases j
  {
    if j > i + 1 {
      NewlinesFree(s, i, j - 1);
    }
  }

  /** The quotes around a string literal are not newlines. */
  lemma {:induction false} NewlinesQuoted(s: string, start: nat, e: nat)
    requires start < e <= |s| && s[start] == '"'
    ensures e < |s| && s[e] == '"' ==> Newlines(s, start, e + 1) == Newlines(s, start + 1, e)
    ensures Newlines(s, start, e) == Newlines(s, start + 1, e)
  {
    NewlinesSplit(s, start, start + 1, e);
  }

  lemma {:induction false} NumberEndFree(s: string, start: nat)
    requires start < |s| && IsDigit(s[start])
    ensures Newlines(s, start, NumberEnd(s, start + 1)) == 0
  {
    var e := NumberEnd(s, start + 1);
    var d := RunEnd(s, start + 1, IsDigit);
    forall k | start < k < e ensures s[k] != '\n' {
      if k >= d && k != d {
        assert IsDigit(s[k]);
      }
    }
    NewlinesFree(s, start, e);
  }

  /** The text a number token covers always parses: `parse().unwrap()` cannot fail. */
  lemma {:induction false} NumberEndIsNumberText(s: string, start: nat)
    requires start < |s| && IsDigit(s[start])
    ensures IsNumberText(s[start..NumberEnd(s, start + 1)])
  {
    var e := NumberEnd(s, start + 1);
    var d := RunEnd(s, start + 1, IsDigit);
    var i := s[start..d];
    assert AllDigits(i) by {
      forall k | 0 <= k < |i| ensures IsDigit(i[k]) {
        assert i[k] == s[start + k];
      }
    }
    if e == d {
      assert s[start..e] == Join(i, "");
    } else {
      var f := s[d + 1..e];
      assert AllDigits(f);
      assert s[start..e] == i + "." + f;
      assert s[start..e] == Join(i, f);
    }
  }

  /** A number with a fraction ends where the digit run after the '.' ends. */
  lemma {:induction false} NumberEndFraction(s: string, i: nat, d: nat)
    requires i <= |s| && d == RunEnd(s, i, IsDigit)
    requires d + 1 < |s| && s[d] == '.' && IsDigit(s[d + 1])
    ensures NumberEnd(s, i) == RunEnd(s, d + 1, IsDigit)
  {
  }

  /** A number without a fraction ends where its digit run ends. */
  lemma {:induction false} NumberEndInteger(s: string, i: nat, d: nat)
    requires i <= |s| && d == RunEnd(s, i, IsDigit)
    requires !(d + 1 < |s| && s[d] == '.' && IsDigit(s[d + 1]))
    ensures NumberEnd(s, i) == d
  {
  }

  /** Tokens already produced stay in front of the tokens still to come. */
  lemma {:induction false} PrefixPrefix(a: seq<Token>, e: bool, b: seq<Token>, f: bool, r: ScanResult)
    ensures Prefix(a, e, Prefix(b, f, r)) == Prefix(a + b, e || f, r)
  {
    if r.Scanned? {
      assert a + (b + r.tokens) == (a + b) + r.tokens;
    }
  }

  /** RunEnd is the one position that ends a maximal run. */
  lemma {:induction false} RunEndIs(s: string, i: nat, j: nat, p: char -> bool)
    requires i <= j <= |s|
    requires forall k :: i <= k < j ==> p(s[k])
    requires j == |s| || !p(s[j])
    ensures RunEnd(s, i, p) == j
    decreases j - i
  {
    if i < j {
      RunEndIs(s, i + 1, j, p);
    }
  }

  // ---------------------------------------------------------------------------
  // The scanner

  class Lexer {
    const source: string
    var tokens: seq<Token>
    var errored: bool
    var start: nat     // first character of the token being scanned
    var current: nat   // next character to read; one past the end after an unterminated string
    var line: nat

    constructor (source: string)
      ensures this.source == source && tokens == [] && !errored
      ensures start == 0 && current == 0 && line == 1
    {
      this.source := source;
      tokens := [];
      errored := false;
      start := 0;
      current := 0;
      line := 1;
    }

    predicate AtEnd()
      reads this
    {
      current >= |source|
    }

    /** The next character, or '\0' at the end. */
    function Peek(): char
      reads this
    {
      if AtEnd() then '\0' else source[current]
    }

    /** The character after the next one, or '\0' past the end. */
    function PeekNext(): char
      reads this
    {
      if current + 1 >= |source| then '\0' else source[current + 1]
    }

    method Advance() returns (c: Option<char>)
      modifies this`current
      ensures current == old(current) + 1
      ensures c == if old(current) < |source| then Some(source[old(current)]) else None
    {
      c := if current < |source| then Some(source[current]) else None;
      current := current + 1;
    }

    method MatchNext(expected: char) returns (matched: bool)
      modifies this`current
      ensures matched == (old(current) < |source| && source[old(current)] == expected)
      ensures current == old(current) + (if matched then 1 else 0)
    {
      if AtEnd() {
        return false;
      }
      if source[current] != expected {
        return false;
      }
      current := current + 1;
      matched := true;
    }

    /** add_token.  The result is false when the slice it takes runs past the end
        of the source, where the source panics. */
    method AddToken(kind: TokenType, literal: Option<Literal>) returns (ok: bool)
      requires start <= current
      modifies this`tokens
      ensures ok == (current <= |source|)
      ensures tokens == if ok then old(tokens) + [Token(kind, source[start..current], literal, line)] else old(tokens)
    {
      if current > |source| {
        return false;
      }
      tokens := tokens + [NewToken(kind, source[start..current], literal, line)];
      ok := true;
    }

    method LexString() returns (ok: bool)
      requires current == start + 1 <= |source| && source[start] == '"'
      modifies this`current, this`line, this`tokens
      ensures line == ScanString(source, start, old(line)).line
      ensures ok <==> ScanString(source, start, old(line)).Lexed?
      ensures ok ==> current == ScanString(source, start, old(line)).next
      ensures ok ==> tokens == old(tokens) + [ScanString(source, start, old(line)).token.value]
      ensures !ok ==> current == |source| + 1 && tokens == old(tokens)
    {
      SkipToQuote();
      ghost var e := current;
      StringAt(source, start, old(line), e, line);
      // At the end the source reports the unterminated string, then panics in add_token.
      var _ := Advance();
      var text := source[start + 1..current - 1];
      ok := AddToken(String, Some(StringLit(text)));
    }

    /** The loop string() runs: up to the closing quote or the end, counting lines. */
    method SkipToQuote()
      requires start < current <= |source|
      modifies this`current, this`line
      ensures current == RunEnd(source, old(current), NotQuote)
      ensures line == old(line) + Newlines(source, old(current), current)
    {
      while Peek() != '"' && !AtEnd()
        invariant old(current) <= current <= |source|
        invariant forall k :: old(current) <= k < current ==> NotQuote(source[k])
        invariant line == old(line) + Newlines(source, old(current), current)
        decreases |source| - current
      {
        if Peek() == '\n' {
          line := line + 1;
        }
        var _ := Advance();
      }
      RunEndIs(source, old(current), current, NotQuote);
    }

    method LexNumber() returns (ok: bool)
      requires current == start + 1 <= |source| && IsDigit(source[start])
      modifies this`current, this`tokens
      ensures ok && current == ScanNumber(source, start, line).next
      ensures tokens == old(tokens) + [ScanNumber(source, start, line).token.value]
    {
      SkipNumber();
      ghost var st := Emit(source, start, current, line, Number, Some(NumberLiteral(source, start)));
      assert ScanNumber(source, start, line) == st;
      ok := AddToken(Number, Some(NumberLiteral(source, start)));
    }

    /** The scanning part of number(): the integer digits, then a fraction when a
        '.' is followed by a digit. */
    method SkipNumber()
      requires current <= |source|
      modifies this`current
      ensures current == NumberEnd(source, old(current))
    {
      SkipDigits();
      ghost var d := current;
      if Peek() == '.' && IsDigit(PeekNext()) {
        NumberEndFraction(source, old(current), d);
        var _ := Advance();
        SkipDigits();
      } else {
        NumberEndInteger(source, old(current), d);
      }
    }

    /** The digit loop number() runs for the integer part and again for the fraction. */
    method SkipDigits()
      requires current <= |source|
      modifies this`current
      ensures current == RunEnd(source, old(current), IsDigit)
    {
      while IsDigit(Peek())
        invariant old(current) <= current <= |source|
        invariant forall k :: old(current) <= k < current ==> IsDigit(source[k])
        decreases |source| - current
      {
        var _ := Advance();
      }
      RunEndIs(source, old(current), current, IsDigit);
    }

    method LexIdentifier() returns (ok: bool)
      requires current == start + 1 <= |source| && IsAlpha(source[start])
      modifies this`current, this`tokens
      ensures var st := ScanWord(source, start, line);
        ok && current == st.next && tokens == old(tokens) + [st.token.value]
    {
      while IsAlphaNum(Peek())
        invariant start < current <= |source|
        invariant forall k :: start < k < current ==> IsAlphaNum(source[k])
        invariant tokens == old(tokens)
        decreases |source| - current
      {
        var _ := Advance();
      }
      RunEndIs(source, start + 1, current, IsAlphaNum);
      var text := source[start..current];
      var kind := if text in Keywords then Keywords[text] else Identifier;
      ok := AddToken(kind, None);
    }

    /** lex_token: scans one token, or skips one blank, newline or comment. */
    method LexToken() returns (ok: bool)
      requires start == current < |source|
      modifies this`current, this`line, this`tokens, this`errored
      ensures var st := ScanToken(source, start, old(line));
        && line == st.line
        && (ok <==> st.Lexed?)
        && (st.Lexed? ==> current == st.next && tokens == old(tokens) + OptionSeq(st.token))
        && (st.Lexed? ==> errored == (old(errored) || st.bad))
        && (st.Unterminated? ==> tokens == old(tokens) && errored == old(errored))
    {
      ok := true;
      var next := Advance();
      if next.Some? {
        var c := next.value;
        // The source matches on the character; the classes below are its arms.
        if PunctuationKind(c).Some? {
          ok := AddToken(PunctuationKind(c).value, None);
        } else if OperatorKinds(c).Some? {
          var m := MatchNext('=');
          var (one, two) := OperatorKinds(c).value;
          ok := AddToken(if m then two else one, None);
        } else if c == '/' {
          var m := MatchNext('/');
          if m {
            LexComment();
          } else {
            ok := AddToken(Slash, None);
          }
        } else if c == ' ' || c == '\r' || c == '\t' {
        } else if c == '\n' {
          line := line + 1;
        } else if c == '"' {
          ok := LexString();
        } else if IsDigit(c) {
          ok := LexNumber();
        } else if IsAlpha(c) {
          ok := LexIdentifier();
        } else {
          // The source reports the unexpected character and goes on.
          errored := true;
        }
      }
    }

    /** The rest of a comment, once "//" is read: up to the next newline. */
    method LexComment()
      requires start + 2 == current <= |source|
      modifies this`current
      ensures current == RunEnd(source, old(current), NotNewline)
    {
      while Peek() != '\n' && !AtEnd()
        invariant old(current) <= current <= |source|
        invariant forall k :: old(current) <= k < current ==> NotNewline(source[k])
        decreases |source| - current
      {
        var _ := Advance();
      }
      RunEndIs(source, old(current), current, NotNewline);
    }

    /** lex_tokens: scans to the end and appends Eof.  The result is
        UnterminatedString where the source panics. */
    method LexTokens() returns (r: ScanResult)
      requires start <= current <= |source|
      modifies this
      ensures r == Prefix(old(tokens), old(errored), ScanFrom(source, old(current), old(line)))
    {
      while !AtEnd()
        invariant current <= |source|
        invariant Prefix(tokens, errored, ScanFrom(source, current, line))
               == Prefix(old(tokens), old(errored), ScanFrom(source, old(current), old(line)))
        decreases |source| - current
      {
        start := current;
        ghost var (ts, e, at, l) := (tokens, errored, current, line);
        var ok := LexToken();
        if !ok {
          return UnterminatedString(line);
        }
        PrefixPrefix(ts, e, OptionSeq(ScanToken(source, at, l).token), ScanToken(source, at, l).bad,
                     ScanFrom(source, current, line));
      }
      tokens := tokens + [EofToken(line)];
      r := Scanned(tokens, errored);
    }
  }

  /** Scanning a whole source with a fresh lexer computes Scan. */
  method Lex(source: string) returns (r: ScanResult)
    ensures r == Scan(source)
  {
    var lexer := new Lexer(source);
    r := lexer.LexTokens();
  }
}
