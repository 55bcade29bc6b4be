/**
  The lexical rules of the scanner as pure functions over the source text:
  what one lexeme starting at a given position produces, and the whole token
  sequence and error list of a scan. The `Scanner` class is proved to compute
  exactly these.
*/
module Lexical {
  import opened Wrappers
  import opened Decimal
  import opened Tokens

  predicate IsAlpha(c: char) {
    'a' <= c <= 'z' || 'A' <= c <= 'Z' || c == '_'
  }

  predicate IsAlphaNumeric(c: char) {
    IsAlpha(c) || IsDigit(c)
  }

  /** The reserved-word table. */
  const Keywords: map<string, TokenType> :=
    map["and" := And, "class" := Class, "else" := Else, "false" := False,
        "for" := For, "fun" := Fun, "if" := If, "nil" := TokenType.Nil,
        "or" := Or, "print" := Print, "return" := Return, "super" := Super,
        "this" := This, "true" := True, "var" := Var, "while" := While]

  /** The keyword kind a word spells, if any. */
  function Keyword(text: string): (k: Option<TokenType>)
    ensures k.Some? ==> IsKeywordKind(k.value) && KeywordText(k.value) == text
  {
    if text in Keywords then Some(Keywords[text]) else None
  }

  /** Every keyword kind is found in the table under its own spelling. */
  lemma KeywordTableComplete(k: TokenType)
    requires IsKeywordKind(k)
    ensures Keyword(KeywordText(k)) == Some(k)
  {
  }

  /** The tokens that are exactly one character long. */
  function SingleCharKind(c: char): (k: Option<TokenType>)
    ensures k.Some? ==> k.value != Eof
  {
    match c
    case '(' => Some(LeftParen)
    case ')' => Some(RightParen)
    case '{' => Some(LeftBrace)
    case '}' => Some(RightBrace)
    case ',' => Some(Comma)
    case '.' => Some(Dot)
    case '-' => Some(Minus)
    case '+' => Some(Plus)
    case ';' => Some(Semicolon)
    case '*' => Some(Star)
    case _ => None
  }

  datatype LexError = LexError(line: nat, message: string)

  /** First index at or after `i` holding `stop`, or |src| when there is none. */
  function Until(src: string, i: nat, stop: char): (j: nat)
    requires i <= |src|
    ensures i <= j <= |src|
    ensures j < |src| ==> src[j] == stop
    ensures forall k :: i <= k < j ==> src[k] != stop
    decreases |src| - i
  {
    if i == |src| || src[i] == stop then i else Until(src, i + 1, stop)
  }

  /** End of the run of digits starting at `i`. */
  function DigitsEnd(src: string, i: nat): (j: nat)
    requires i <= |src|
    ensures i <= j <= |src|
    ensures j < |src| ==> !IsDigit(src[j])
    ensures forall k :: i <= k < j ==> IsDigit(src[k])
    decreases |src| - i
  {
    if i == |src| || !IsDigit(src[i]) then i else DigitsEnd(src, i + 1)
  }

  /** End of the run of letters, digits and underscores starting at `i`. */
  function WordEnd(src: string, i: nat): (j: nat)
    requires i <= |src|
    ensures i <= j <= |src|
    ensures j < |src| ==> !IsAlphaNumeric(src[j])
    ensures forall k :: i <= k < j ==> IsAlphaNumeric(src[k])
    decreases |src| - i
  {
    if i == |src| || !IsAlphaNumeric(src[i]) then i else WordEnd(src, i + 1)
  }

  /**
    End of a number whose first digit precedes `i`: the digit run, then a
    '.' and a second digit run only when a digit follows the dot at once.
  */
  function NumberEnd(src: string, i: nat): (j: nat)
    requires i <= |src|
    ensures i <= j <= |src|
  {
    var d := DigitsEnd(src, i);
    if d + 1 < |src| && src[d] == '.' && IsDigit(src[d + 1]) then DigitsEnd(src, d + 1) else d
  }

  /** The number of newline characters in `src[a..b]`. */
  function Newlines(src: string, a: nat, b: nat): nat
    requires a <= b <= |src|
    decreases b - a
  {
    if a == b then 0 else Newlines(src, a, b - 1) + (if src[b - 1] == '\n' then 1 else 0)
  }

  /** What scanning one lexeme does: where it stops, the new line, a token, an error. */
  datatype Step = Step(next: nat, line: nat, token: Option<Token>, error: Option<LexError>)

  function Emit(src: string, start: nat, next: nat, kind: TokenType, literal: Value, line: nat): Step
    requires start <= next <= |src|
  {
    Step(next, line, Some(Token(kind, src[start..next], literal, line)), None)
  }

  /** '!', '=', '<' or '>', alone or followed by '='. */
  function OperatorStep(src: string, start: nat, line: nat): (s: Step)
    requires start < |src| && src[start] in "!=<>"
    ensures start < s.next <= |src|
  {
    var cur := start + 1;
    var followedByEqual := cur < |src| && src[cur] == '=';
    Emit(src, start, if followedByEqual then cur + 1 else cur, OperatorKind(src[start], followedByEqual), Value.Nil, line)
  }

  /** The kind of '!', '=', '<' or '>', with or without a following '='. */
  function OperatorKind(c: char, followedByEqual: bool): TokenType
    requires c in "!=<>"
  {
    if c == '!' then (if followedByEqual then BangEqual else Bang)
    else if c == '=' then (if followedByEqual then EqualEqual else Equal)
    else if c == '<' then (if followedByEqual then LessEqual else Less)
    else (if followedByEqual then GreaterEqual else Greater)
  }

  /** A '/': a line comment when a second '/' follows, else a Slash token. */
  function SlashStep(src: string, start: nat, line: nat): (s: Step)
    requires start < |src| && src[start] == '/'
    ensures start < s.next <= |src|
  {
    var cur := start + 1;
    if cur < |src| && src[cur] == '/' then Step(Until(src, cur + 1, '\n'), line, None, None)
    else Emit(src, start, cur, Slash, Value.Nil, line)
  }

  /** A string literal from its opening quote at `start`. */
  function StringStep(src: string, start: nat, line: nat): (s: Step)
    requires start < |src| && src[start] == '"'
    ensures start < s.next <= |src|
  {
    var cur := start + 1;
    var j := Until(src, cur, '"');
    var l := line + Newlines(src, cur, j);
    if j == |src| then Step(j, l, None, Some(LexError(l, "Unterminated string.")))
    else Step(j + 1, l, Some(Token(TokenType.Str, src[start..j + 1], Value.Str(src[cur..j]), l)), None)
  }

  /** A number literal from its first digit at `start`. */
  function NumberStep(src: string, start: nat, line: nat): (s: Step)
    requires start < |src| && IsDigit(src[start])
    ensures start < s.next <= |src|
  {
    var j := NumberEnd(src, start + 1);
    Emit(src, start, j, TokenType.Number, Value.Number(DecimalValue(src[start..j])), line)
  }

  /** An identifier or keyword from its first letter at `start`. */
  function WordStep(src: string, start: nat, line: nat): (s: Step)
    requires start < |src| && IsAlpha(src[start])
    ensures start < s.next <= |src|
  {
    var j := WordEnd(src, start + 1);
    var text := src[start..j];
    match Keyword(text)
    case Some(k) => Emit(src, start, j, k, Value.Str(text), line)
    case None => Emit(src, start, j, Identifier, Value.Nil, line)
  }

  /** Scanning the lexeme that begins at `start`, one character after the previous one ended. */
  function ScanStep(src: string, start: nat, line: nat): (s: Step)
    requires start < |src|
    ensures start < s.next <= |src|
  {
    var c := src[start];
    if SingleCharKind(c).Some? then
      Emit(src, start, start + 1, SingleCharKind(c).value, Value.Nil, line)
    else if c in "!=<>" then OperatorStep(src, start, line)
    else if c == '/' then SlashStep(src, start, line)
    else if c == '"' then StringStep(src, start, line)
    else if c == '\n' then Step(start + 1, line + 1, None, None)
    else if IsDigit(c) then NumberStep(src, start, line)
    else if IsAlpha(c) then WordStep(src, start, line)
    else if c == ' ' || c == '\r' || c == '\t' then Step(start + 1, line, None, None)
    else Step(start + 1, line, None, Some(LexError(line, "Unexpected character.")))
  }
}
