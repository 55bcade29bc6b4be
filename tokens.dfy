/**
  The token model: the closed set of lexical categories, the literal payload
  a token (and, later, an evaluation) carries, and the token record itself.
*/
module Tokens {
  import opened Decimal

  datatype TokenType =
    // Single-character tokens.
    | LeftParen | RightParen | LeftBrace | RightBrace
    | Comma | Dot | Minus | Plus | Semicolon | Slash | Star
    // One or two character tokens.
    | Bang | BangEqual
    | Equal | EqualEqual
    | Greater | GreaterEqual
    | Less | LessEqual
    // Literals.
    | Identifier | Str | Number
    // Keywords.
    | And | Class | Else | False | Fun | For | If | Nil | Or
    | Print | Return | Super | This | True | Var | While
    | Eof

  /**
    The literal payload of a token and the result of evaluation. `Nil` is
    the absence of a payload (the source's `TokenLiteral::None`).
  */
  datatype Value = Number(n: real) | Str(s: string) | Bool(b: bool) | Nil

  /** A token: its category, the exact source text, its payload and its line. */
  datatype Token = Token(kind: TokenType, lexeme: string, literal: Value, line: nat)

  predicate IsKeywordKind(k: TokenType) {
    k in {And, Class, Else, False, Fun, For, If, TokenType.Nil, Or,
          Print, Return, Super, This, True, Var, While}
  }

  /** The reserved word spelling each keyword kind. */
  function KeywordText(k: TokenType): (t: string)
    requires IsKeywordKind(k)
    ensures |t| >= 2
  {
    match k
    case And => "and"
    case Class => "class"
    case Else => "else"
    case False => "false"
    case For => "for"
    case Fun => "fun"
    case If => "if"
    case Nil => "nil"
    case Or => "or"
    case Print => "print"
    case Return => "return"
    case Super => "super"
    case This => "this"
    case True => "true"
    case Var => "var"
    case While => "while"
  }

  /** The derived debug name of each kind, as the token display prints it. */
  function KindName(k: TokenType): string {
    match k
    case LeftParen => "LeftParen"
    case RightParen => "RightParen"
    case LeftBrace => "LeftBrace"
    case RightBrace => "RightBrace"
    case Comma => "Comma"
    case Dot => "Dot"
    case Minus => "Minus"
    case Plus => "Plus"
    case Semicolon => "Semicolon"
    case Slash => "Slash"
    case Star => "Star"
    case Bang => "Bang"
    case BangEqual => "BangEqual"
    case Equal => "Equal"
    case EqualEqual => "EqualEqual"
    case Greater => "Greater"
    case GreaterEqual => "GreaterEqual"
    case Less => "Less"
    case LessEqual => "LessEqual"
    case Identifier => "Identifier"
    case Str => "Str"
    case Number => "Number"
    case And => "And"
    case Class => "Class"
    case Else => "Else"
    case False => "False"
    case Fun => "Fun"
    case For => "For"
    case If => "If"
    case Nil => "Nil"
    case Or => "Or"
    case Print => "Print"
    case Return => "Return"
    case Super => "Super"
    case This => "This"
    case True => "True"
    case Var => "Var"
    case While => "While"
    case Eof => "Eof"
  }

  /** Debug escaping of a string body: quote, backslash and the common control characters. */
  function Escaped(s: string): (r: string)
    ensures |r| >= |s|
    ensures (forall i :: 0 <= i < |s| ==> s[i] !in "\"\\\n\r\t\0") ==> r == s
  {
    if s == [] then []
    else
      var c := s[0];
      var e := if c == '"' then "\\\"" else if c == '\\' then "\\\\"
               else if c == '\n' then "\\n" else if c == '\r' then "\\r"
               else if c == '\t' then "\\t" else if c == '\0' then "\\0"
               else [c];
      e + Escaped(s[1..])
  }

  /** Debug form of a payload; `debugNumber` is the float's debug text. */
  function LiteralDebug(v: Value, debugNumber: real -> string): string {
    match v
    case Number(n) => "Number(" + debugNumber(n) + ")"
    case Str(s) => "Str(\"" + Escaped(s) + "\")"
    case Bool(b) => if b then "Bool(true)" else "Bool(false)"
    case Nil => "None"
  }

  /** Display of a token: kind, lexeme, payload and line, in that order. */
  function Display(t: Token, debugNumber: real -> string): string {
    KindName(t.kind) + " " + t.lexeme + " " + LiteralDebug(t.literal, debugNumber)
    + ", line: " + NatText(t.line)
  }

  /**
    The display ends with ", line: " and the line number's digits, from
    which the line can be read back.
  */
  lemma DisplayEndsWithLine(t: Token, debugNumber: real -> string)
    ensures var d := Display(t, debugNumber);
            var n := |NatText(t.line)|;
            |d| > n + 8
            && d[|d| - n - 8..|d| - n] == ", line: "
            && AllDigits(d[|d| - n..])
            && DigitsValue(d[|d| - n..]) == t.line
  {
    var digits := NatText(t.line);
    var front := KindName(t.kind) + " " + t.lexeme + " " + LiteralDebug(t.literal, debugNumber);
    var x := front + ", line: ";
    var d := Display(t, debugNumber);
    assert d == x + digits;
    SuffixOfConcat(x, digits);
    SliceOfFront(x, digits, |x| - 8, |x|);
    SuffixOfConcat(front, ", line: ");
    NatTextRoundTrip(t.line);
  }

  /** The display starts with the kind's name followed by the lexeme. */
  lemma DisplayStartsWithKindAndLexeme(t: Token, debugNumber: real -> string)
    ensures var d := Display(t, debugNumber);
            var p := KindName(t.kind) + " " + t.lexeme + " ";
            |d| > |p| && d[..|p|] == p
  {
    var p := KindName(t.kind) + " " + t.lexeme + " ";
    var lit := LiteralDebug(t.literal, debugNumber);
    var x := p + lit + ", line: ";
    var d := Display(t, debugNumber);
    assert d == x + NatText(t.line);
    SliceOfFront(x, NatText(t.line), 0, |p|);
    SliceOfFront(p + lit, ", line: ", 0, |p|);
    SliceOfFront(p, lit, 0, |p|);
  }

  /** A slice that lies within the front part of a concatenation. */
  lemma SliceOfFront(a: string, b: string, i: nat, j: nat)
    requires i <= j <= |a|
    ensures (a + b)[i..j] == a[i..j]
  {
  }

  /** The back part of a concatenation. */
  lemma SuffixOfConcat(a: string, b: string)
    ensures (a + b)[|a|..] == b
  {
  }
}
