/**
 * The token and literal data model shared by the scanner, the parser and the
 * expression tree (src/token.rs): the closed set of token kinds, literal
 * payloads, the token record, and the two text conversions the source
 * defines (a literal's display text and a token's debug line).
 */
module Tokens {
  import opened Decimal

  datatype Option<+T> = None | Some(value: T)

  datatype TokenType =
    // single-character tokens
    | LeftParen | RightParen | LeftBrace | RightBrace | Comma | Dot
    | Minus | Plus | Semicolon | Slash | Star
    // one- or two-character comparison tokens
    | Bang | BangEqual | Equal | EqualEqual
    | Greater | GreaterEqual | Less | LessEqual
    // literal-carrying tokens
    | Identifier | String | Number
    // keywords
    | And | Class | Else | False | Fun | For | If | Nil
    | Or | Print | Return | Super | This | True | Var | While
    // end of input
    | Eof

  /** A literal payload.  A number keeps the text it was scanned from; the value
      it denotes is given by module Decimal. */
  datatype Literal = StringLit(text: string) | NumberLit(number: NumberText)

  datatype Token = Token(kind: TokenType, lexeme: string, literal: Option<Literal>, line: nat)

  /** Token::new */
  function NewToken(kind: TokenType, lexeme: string, literal: Option<Literal>, line: nat): (t: Token)
    ensures t.kind == kind && t.lexeme == lexeme && t.literal == literal && t.line == line
  {
    Token(kind, lexeme, literal, line)
  }

  /** The display text of a literal (`From<&Literal> for String`, used by `Display`):
      a string is rendered as itself, without quotes; a number as the canonical
      decimal form of its value. */
  function LiteralText(l: Literal): string {
    match l
    case StringLit(s) => s
    case NumberLit(n) => Display(n)
  }

  lemma {:induction false} LiteralTextMeaning(l: Literal)
    ensures l.StringLit? ==> LiteralText(l) == l.text
    ensures l.NumberLit? ==> IsNumberText(LiteralText(l)) && IsCanonical(LiteralText(l))
    ensures l.NumberLit? ==> SameValue(LiteralText(l), l.number)
  {
    if l.NumberLit? {
      DisplayKeepsValue(l.number);
      DisplayIsCanonical(l.number);
    }
  }

  // ---------------------------------------------------------------------------
  // The closed set of kinds

  /** Every kind, in declaration order. */
  const AllKinds: seq<TokenType> := [
    LeftParen, RightParen, LeftBrace, RightBrace, Comma, Dot, Minus, Plus, Semicolon, Slash, Star,
    Bang, BangEqual, Equal, EqualEqual, Greater, GreaterEqual, Less, LessEqual,
    Identifier, String, Number,
    And, Class, Else, False, Fun, For, If, Nil, Or, Print, Return, Super, This, True, Var, While,
    Eof]
  const CharKinds: seq<TokenType> := AllKinds[..11]
  const ComparisonKinds: seq<TokenType> := AllKinds[11..19]
  const LiteralKinds: seq<TokenType> := AllKinds[19..22]
  const KeywordKinds: seq<TokenType> := AllKinds[22..38]

  predicate Distinct<T(==)>(s: seq<T>) {
    forall i, j :: 0 <= i < j < |s| ==> s[i] != s[j]
  }

  lemma {:induction false} KindsAreClosed(t: TokenType)
    ensures t in AllKinds
  {
  }

  /** The position of a kind in AllKinds. */
  function KindIndex(t: TokenType): nat {
    match t
    case LeftParen => 0 case RightParen => 1 case LeftBrace => 2 case RightBrace => 3
    case Comma => 4 case Dot => 5 case Minus => 6 case Plus => 7 case Semicolon => 8
    case Slash => 9 case Star => 10
    case Bang => 11 case BangEqual => 12 case Equal => 13 case EqualEqual => 14
    case Greater => 15 case GreaterEqual => 16 case Less => 17 case LessEqual => 18
    case Identifier => 19 case String => 20 case Number => 21
    case And => 22 case Class => 23 case Else => 24 case False => 25 case Fun => 26
    case For => 27 case If => 28 case Nil => 29 case Or => 30 case Print => 31
    case Return => 32 case Super => 33 case This => 34 case True => 35 case Var => 36
    case While => 37
    case Eof => 38
  }

  /** The kind set is closed and has 11 + 8 + 3 + 16 + 1 distinct members. */
  lemma {:induction false} KindCounts()
    ensures |CharKinds| == 11 && |ComparisonKinds| == 8 && |LiteralKinds| == 3
    ensures |KeywordKinds| == 16 && |AllKinds| == 39
    ensures AllKinds == CharKinds + ComparisonKinds + LiteralKinds + KeywordKinds + [Eof]
    ensures Distinct(AllKinds)
  {
    forall i, j | 0 <= i < j < |AllKinds| ensures AllKinds[i] != AllKinds[j] {
      KindAt(i);
      KindAt(j);
    }
  }

  lemma {:induction false} KindAt(i: nat)
    requires i < |AllKinds|
    ensures KindIndex(AllKinds[i]) == i
  {
    if i < 10 {
      KindAt0(i);
    } else if i < 20 {
      KindAt10(i);
    } else if i < 30 {
      KindAt20(i);
    } else {
      KindAt30(i);
    }
  }

  lemma {:induction false} KindAt0(i: nat)
    requires i < 10
    ensures KindIndex(AllKinds[i]) == i
  {
  }

  lemma {:induction false} KindAt10(i: nat)
    requires 10 <= i < 20
    ensures KindIndex(AllKinds[i]) == i
  {
  }

  lemma {:induction false} KindAt20(i: nat)
    requires 20 <= i < 30
    ensures KindIndex(AllKinds[i]) == i
  {
  }

  lemma {:induction false} KindAt30(i: nat)
    requires 30 <= i < 39
    ensures KindIndex(AllKinds[i]) == i
  {
  }

  lemma {:induction false} KindIndexInverse(t: TokenType)
    ensures KindIndex(t) < 39 && AllKinds[KindIndex(t)] == t
  {
    KindsAreClosed(t);
    var i :| 0 <= i < |AllKinds| && AllKinds[i] == t;
    KindAt(i);
  }

  // ---------------------------------------------------------------------------
  // Debug text of a token: `format!("{:?} {} {:?}", kind, lexeme, literal)`

  /** `{:?}` of a TokenType: its variant name. */
  function KindName(t: TokenType): (r: string)
    ensures |r| > 0 && ' ' !in r
  {
    match t
    case LeftParen => "LeftParen"
    case RightParen => "RightParen"
    case LeftBrace => "LeftBrace"
    case RightBrace => "RightBrace"
    case Comma => "Comma"
    case Dot => "Dot"
    case Minus => "Minus"
    case Plus => "Plus"
    case Semicolon => "Semicolon"
    case Slash => "Slash"
    case Star => "Star"
    case Bang => "Bang"
    case BangEqual => "BangEqual"
    case Equal => "Equal"
    case EqualEqual => "EqualEqual"
    case Greater => "Greater"
    case GreaterEqual => "GreaterEqual"
    case Less => "Less"
    case LessEqual => "LessEqual"
    case Identifier => "Identifier"
    case String => "String"
    case Number => "Number"
    case And => "And"
    case Class => "Class"
    case Else => "Else"
    case False => "False"
    case Fun => "Fun"
    case For => "For"
    case If => "If"
    case Nil => "Nil"
    case Or => "Or"
    case Print => "Print"
    case Return => "Return"
    case Super => "Super"
    case This => "This"
    case True => "True"
    case Var => "Var"
    case While => "While"
    case Eof => "Eof"
  }

  /** The kind whose variant name is s, if any.  Each name is told apart from the
      others by its length and its first and last letters; the candidate so found
      is then compared with s in full. */
  function KindFromName(s: string): (r: Option<TokenType>)
    ensures r.Some? ==> KindName(r.value) == s
  {
    if s == [] then None
    else
      var t := NameKey(|s|, s[0], s[|s| - 1]);
      if t.Some? && KindName(t.value) == s then t else None
  }

  /** Tells the variant names apart by length, then by first and last letter. */
  function NameKey(n: nat, first: char, last: char): Option<TokenType> {
    match n
    case 2 =>
      if first == 'I' && last == 'f' then Some(If)
      else if first == 'O' && last == 'r' then Some(Or)
      else None
    case 3 =>
      if first == 'D' && last == 't' then Some(Dot)
      else if first == 'A' && last == 'd' then Some(And)
      else if first == 'F' && last == 'n' then Some(Fun)
      else if first == 'F' && last == 'r' then Some(For)
      else if first == 'N' && last == 'l' then Some(Nil)
      else if first == 'V' && last == 'r' then Some(Var)
      else if first == 'E' && last == 'f' then Some(Eof)
      else None
    case 4 =>
      if first == 'P' && last == 's' then Some(Plus)
      else if first == 'S' && last == 'r' then Some(Star)
      else if first == 'B' && last == 'g' then Some(Bang)
      else if first == 'L' && last == 's' then Some(Less)
      else if first == 'E' && last == 'e' then Some(Else)
      else if first == 'T' && last == 's' then Some(This)
      else if first == 'T' && last == 'e' then Some(True)
      else None
    case 5 =>
      if first == 'C' && last == 'a' then Some(Comma)
      else if first == 'M' && last == 's' then Some(Minus)
      else if first == 'S' && last == 'h' then Some(Slash)
      else if first == 'E' && last == 'l' then Some(Equal)
      else if first == 'C' && last == 's' then Some(Class)
      else if first == 'F' && last == 'e' then Some(False)
      else if first == 'P' && last == 't' then Some(Print)
      else if first == 'S' && last == 'r' then Some(Super)
      else if first == 'W' && last == 'e' then Some(While)
      else None
    case 6 =>
      if first == 'S' && last == 'g' then Some(String)
      else if first == 'N' && last == 'r' then Some(Number)
      else if first == 'R' && last == 'n' then Some(Return)
      else None
    case 7 =>
      if first == 'G' && last == 'r' then Some(Greater)
      else None
    case 9 =>
      if first == 'L' && last == 'n' then Some(LeftParen)
      else if first == 'L' && last == 'e' then Some(LeftBrace)
      else if first == 'S' && last == 'n' then Some(Semicolon)
      else if first == 'B' && last == 'l' then Some(BangEqual)
      else if first == 'L' && last == 'l' then Some(LessEqual)
      else None
    case 10 =>
      if first == 'R' && last == 'n' then Some(RightParen)
      else if first == 'R' && last == 'e' then Some(RightBrace)
      else if first == 'E' && last == 'l' then Some(EqualEqual)
      else if first == 'I' && last == 'r' then Some(Identifier)
      else None
    case 12 =>
      if first == 'G' && last == 'l' then Some(GreaterEqual)
      else None
    case _ => None
  }

  /** Variant names tell kinds apart: the name of a kind leads back to that kind.
      The kinds are taken a few at a time to keep each proof small. */
  lemma {:induction false} KindNameRoundTrip(t: TokenType)
    ensures KindFromName(KindName(t)) == Some(t)
  {
    match t
    case LeftParen | RightParen | LeftBrace | RightBrace => NamesOfLeftParen(t);
    case Comma | Dot | Minus | Plus => NamesOfComma(t);
    case Semicolon | Slash | Star | Bang => NamesOfSemicolon(t);
    case BangEqual | Equal | EqualEqual | Greater => NamesOfBangEqual(t);
    case GreaterEqual | Less | LessEqual | Identifier => NamesOfGreaterEqual(t);
    case String | Number | And | Class => NamesOfString(t);
    case Else | False | Fun | For => NamesOfElse(t);
    case If | Nil | Or | Print => NamesOfIf(t);
    case Return | Super | This | True => NamesOfReturn(t);
    case Var | While | Eof => NamesOfVar(t);
  }

  lemma {:induction false} NamesOfLeftParen(t: TokenType)
    requires t in {LeftParen, RightParen, LeftBrace, RightBrace}
    ensures KindFromName(KindName(t)) == Some(t)
  {
  }

  lemma {:induction false} NamesOfComma(t: TokenType)
    requires t in {Comma, Dot, Minus, Plus}
    ensures KindFromName(KindName(t)) == Some(t)
  {
  }

  lemma {:induction false} NamesOfSemicolon(t: TokenType)
    requires t in {Semicolon, Slash, Star, Bang}
    ensures KindFromName(KindName(t)) == Some(t)
  {
  }

  lemma {:induction false} NamesOfBangEqual(t: TokenType)
    requires t in {BangEqual, Equal, EqualEqual, Greater}
    ensures KindFromName(KindName(t)) == Some(t)
  {
  }

  lemma {:induction false} NamesOfGreaterEqual(t: TokenType)
    requires t in {GreaterEqual, Less, LessEqual, Identifier}
    ensures KindFromName(KindName(t)) == Some(t)
  {
  }

  lemma {:induction false} NamesOfString(t: TokenType)
    requires t in {String, Number, And, Class}
    ensures KindFromName(KindName(t)) == Some(t)
  {
  }

  lemma {:induction false} NamesOfElse(t: TokenType)
    requires t in {Else, False, Fun, For}
    ensures KindFromName(KindName(t)) == Some(t)
  {
  }

  lemma {:induction false} NamesOfIf(t: TokenType)
    requires t in {If, Nil, Or, Print}
    ensures KindFromName(KindName(t)) == Some(t)
  {
  }

  lemma {:induction false} NamesOfReturn(t: TokenType)
    requires t in {Return, Super, This, True}
    ensures KindFromName(KindName(t)) == Some(t)
  {
  }

  lemma {:induction false} NamesOfVar(t: TokenType)
    requires t in {Var, While, Eof}
    ensures KindFromName(KindName(t)) == Some(t)
  {
  }

  function HexDigit(n: nat): char
    requires n < 16
  {
    if n < 10 then ('0' as int + n) as char else ('a' as int + n - 10) as char
  }

  /** `{:?}` of one character inside a string, for ASCII text: the named escapes,
      `\u{..}` in lower-case hex for the other control characters, and the
      character itself otherwise. */
  function EscapeChar(c: char): (r: string)
    ensures |r| > 0
  {
    if c == '\0' then "\\0"
    else if c == '\t' then "\\t"
    else if c == '\r' then "\\r"
    else if c == '\n' then "\\n"
    else if c == '\\' then "\\\\"
    else if c == '"' then "\\\""
    else if c as int < 32 || c as int == 127 then
      var n := c as int;
      "\\u{" + (if n < 16 then [HexDigit(n)] else [HexDigit(n / 16), HexDigit(n % 16)]) + "}"
    else [c]
  }

  function EscapeDebug(s: string): string {
    if s == [] then "" else EscapeChar(s[0]) + EscapeDebug(s[1..])
  }

  /** `{:?}` of a String: quoted, with each character escaped. */
  function DebugString(s: string): string {
    "\"" + EscapeDebug(s) + "\""
  }

  /** `{:?}` of an f64 in the decimal range: as Display, but always with a fraction. */
  function DebugNumber(n: NumberText): (r: string)
    ensures '.' in r
  {
    var d := Display(n);
    if '.' in d then d else d + ".0"
  }

  /** `{:?}` of an Option<Literal>. */
  function LiteralDebug(l: Option<Literal>): string {
    match l
    case None => "None"
    case Some(StringLit(s)) => "Some(String(" + DebugString(s) + "))"
    case Some(NumberLit(n)) => "Some(Number(" + DebugNumber(n) + "))"
  }

  /** `From<Token> for String`. */
  function TokenText(t: Token): string {
    KindName(t.kind) + " " + t.lexeme + " " + LiteralDebug(t.literal)
  }

  /** The first space-free word of a text. */
  function FirstWord(s: string): (w: string)
    ensures w <= s && ' ' !in w
    ensures |w| < |s| ==> s[|w|] == ' '
  {
    if s == [] || s[0] == ' ' then "" else [s[0]] + FirstWord(s[1..])
  }

  /** Reads a kind back from the first word of a token's debug text. */
  function ReadKind(s: string): Option<TokenType> {
    KindFromName(FirstWord(s))
  }

  lemma {:induction false} FirstWordOf(w: string, rest: string)
    requires ' ' !in w
    ensures FirstWord(w + " " + rest) == w
    decreases |w|
  {
    if w == [] {
      assert (w + " " + rest)[0] == ' ';
    } else {
      assert (w + " " + rest)[1..] == w[1..] + " " + rest;
      FirstWordOf(w[1..], rest);
    }
  }

  lemma {:induction false} NameThenRest(n: string, rest: string)
    requires ' ' !in n
    ensures FirstWord(n + " " + rest) == n && (n + " " + rest)[..|n| + 1] == n + " "
  {
    FirstWordOf(n, rest);
  }

  /** The debug text of a token starts with its kind's name followed by a
      single space, so the kind can be read back from it. */
  lemma {:induction false} TokenTextKind(t: Token)
    ensures ReadKind(TokenText(t)) == Some(t.kind)
    ensures TokenText(t)[..|KindName(t.kind)| + 1] == KindName(t.kind) + " "
  {
    var n, rest := KindName(t.kind), t.lexeme + " " + LiteralDebug(t.literal);
    assert TokenText(t) == n + " " + rest;
    NameThenRest(n, rest);
    KindNameRoundTrip(t.kind);
  }

  // ---------------------------------------------------------------------------
  // Reading escaped text back: the inverse of EscapeDebug

  function HexValue(c: char): Option<nat> {
    if '0' <= c <= '9' then Some(c as int - '0' as int)
    else if 'a' <= c <= 'f' then Some(c as int - 'a' as int + 10)
    else None
  }

  /** Undoes EscapeDebug; None on text that EscapeDebug cannot produce. */
  function Unescape(e: string): Option<string>
    decreases |e|
  {
    if e == [] then Some("")
    else if e[0] != '\\' then Prepend(e[0], Unescape(e[1..]))
    else if |e| < 2 then None
    else if e[1] in "0trn\\\"" then
      var c := match e[1] case '0' => '\0' case 't' => '\t' case 'r' => '\r' case 'n' => '\n' case '\\' => '\\' case _ => '"';
      Prepend(c, Unescape(e[2..]))
    else if e[1] == 'u' && |e| >= 5 && e[2] == '{' && e[4] == '}' && HexValue(e[3]).Some? then
      Prepend(HexValue(e[3]).value as char, Unescape(e[5..]))
    else if e[1] == 'u' && |e| >= 6 && e[2] == '{' && e[5] == '}' && HexValue(e[3]).Some? && HexValue(e[4]).Some? then
      Prepend((HexValue(e[3]).value * 16 + HexValue(e[4]).value) as char, Unescape(e[6..]))
    else None
  }

  function Prepend(c: char, r: Option<string>): Option<string> {
    match r
    case None => None
    case Some(s) => Some([c] + s)
  }

  lemma {:induction false} UnescapeChar(c: char, rest: string)
    requires c as int < 128
    ensures Unescape(EscapeChar(c) + rest) == Prepend(c, Unescape(rest))
  {
    var e := EscapeChar(c) + rest;
    if c as int < 32 || c as int == 127 {
      var n := c as int;
      if c != '\0' && c != '\t' && c != '\r' && c != '\n' {
        if n < 16 {
          assert e[5..] == rest;
        } else {
          assert e[6..] == rest;
        }
      } else {
        assert e[2..] == rest;
      }
    } else if c == '\\' || c == '"' {
      assert e[2..] == rest;
    } else {
      assert e[1..] == rest;
    }
  }

  predicate IsAsciiText(s: string) {
    forall i :: 0 <= i < |s| ==> s[i] as int < 128
  }

  /** Escaping ASCII text loses nothing: Unescape reads the text back. */
  lemma {:induction false} EscapeRoundTrip(s: string)
    requires IsAsciiText(s)
    ensures Unescape(EscapeDebug(s)) == Some(s)
  {
    if s != [] {
      EscapeRoundTrip(s[1..]);
      UnescapeChar(s[0], EscapeDebug(s[1..]));
      assert [s[0]] + s[1..] == s;
    }
  }
}
