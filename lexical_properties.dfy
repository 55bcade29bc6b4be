/** What the lexical rules guarantee, one lexeme at a time. */
module LexicalProperties {
  import opened Wrappers
  import opened Decimal
  import opened Tokens
  import opened Lexical

  /** The newlines of `src[a..c]` are those of `src[a..b]` plus those of `src[b..c]`. */
  lemma {:induction false} NewlinesSplit(src: string, a: nat, b: nat, c: nat)
    requires a <= b <= c <= |src|
    ensures Newlines(src, a, c) == Newlines(src, a, b) + Newlines(src, b, c)
    decreases c - b
  {
    if b < c {
      NewlinesSplit(src, a, b, c - 1);
    }
  }

  lemma NewlinesOne(src: string, i: nat)
    requires i < |src|
    ensures Newlines(src, i, i + 1) == if src[i] == '\n' then 1 else 0
  {
    assert Newlines(src, i, i) == 0;
  }

  lemma {:induction false} NoNewlines(src: string, a: nat, b: nat)
    requires a <= b <= |src|
    requires forall k :: a <= k < b ==> src[k] != '\n'
    ensures Newlines(src, a, b) == 0
    decreases b - a
  {
    if a < b {
      NoNewlines(src, a, b - 1);
    }
  }

  /** The quotes around a string literal's text hold no newline. */
  lemma QuoteNewlines(src: string, start: nat, j: nat)
    requires start < j <= |src| && src[start] == '"'
    requires j < |src| ==> src[j] == '"'
    ensures Newlines(src, start, j) == Newlines(src, start + 1, j)
    ensures j < |src| ==> Newlines(src, start, j + 1) == Newlines(src, start + 1, j)
  {
    NewlinesSplit(src, start, start + 1, j);
    NewlinesOne(src, start);
    if j < |src| {
      NewlinesSplit(src, start, j, j + 1);
      NewlinesOne(src, j);
    }
  }

  lemma StringStepLine(src: string, start: nat, line: nat)
    requires start < |src| && src[start] == '"'
    ensures var s := StringStep(src, start, line);
            s.line == line + Newlines(src, start, s.next)
  {
    StringStepSpan(src, start, line);
    QuoteNewlines(src, start, Until(src, start + 1, '"'));
  }

  /** A present token is the token its fields spell. */
  lemma SomeToken(t: Option<Token>, kind: TokenType, lexeme: string, literal: Value, line: nat)
    requires t.Some? && t.value.kind == kind && t.value.lexeme == lexeme
    requires t.value.literal == literal && t.value.line == line
    ensures t == Some(Token(kind, lexeme, literal, line))
  {
  }

  /** Which step function `ScanStep` hands each kind of first character to. */
  lemma ScanStepCases(src: string, start: nat, line: nat)
    requires start < |src|
    ensures src[start] in "!=<>" ==> ScanStep(src, start, line) == OperatorStep(src, start, line)
    ensures src[start] == '/' ==> ScanStep(src, start, line) == SlashStep(src, start, line)
    ensures src[start] == '"' ==> ScanStep(src, start, line) == StringStep(src, start, line)
    ensures IsDigit(src[start]) ==> ScanStep(src, start, line) == NumberStep(src, start, line)
    ensures IsAlpha(src[start]) ==> ScanStep(src, start, line) == WordStep(src, start, line)
  {
  }

  /** Only a string literal or a newline itself consumes a newline. */
  lemma NoNewlineInside(src: string, start: nat, line: nat)
    requires start < |src| && src[start] != '"' && src[start] != '\n'
    ensures forall k :: start <= k < ScanStep(src, start, line).next ==> src[k] != '\n'
  {
  }

  /** One lexeme advances the line exactly by the newlines it consumed. */
  lemma ScanStepLine(src: string, start: nat, line: nat)
    requires start < |src|
    ensures var s := ScanStep(src, start, line);
            s.line == line + Newlines(src, start, s.next)
  {
    var s := ScanStep(src, start, line);
    var c := src[start];
    if c == '"' {
      StringStepLine(src, start, line);
    } else if c != '\n' {
      NoNewlineInside(src, start, line);
      NoNewlines(src, start, s.next);
    }
  }

  /**
    A token produced by one lexeme spells exactly the text consumed, which is
    not empty, carries the line reached, and is never the end marker.
  */
  lemma ScanStepToken(src: string, start: nat, line: nat)
    requires start < |src|
    ensures var s := ScanStep(src, start, line);
            s.token.Some? ==>
              s.token.value.lexeme == src[start..s.next]
              && |s.token.value.lexeme| >= 1
              && s.token.value.kind != Eof
              && s.token.value.line == s.line
              && s.error.None?
  {
  }

  /** The line after a step plus the newlines still ahead is the line before plus all newlines ahead. */
  lemma StepKeepsLineCount(src: string, pos: nat, line: nat)
    requires pos < |src|
    ensures var s := ScanStep(src, pos, line);
            s.line + Newlines(src, s.next, |src|) == line + Newlines(src, pos, |src|)
  {
    var s := ScanStep(src, pos, line);
    ScanStepLine(src, pos, line);
    NewlinesSplit(src, pos, s.next, |src|);
  }

  /**
    '!', '=', '<' and '>' take the "-equal" kind, two characters long,
    exactly when the next character is '='; otherwise the bare kind.
  */
  lemma TwoCharOperators(src: string, start: nat, line: nat)
    requires start < |src| && src[start] in "!=<>"
    ensures var s := ScanStep(src, start, line);
            var eq := start + 1 < |src| && src[start + 1] == '=';
            var c := src[start];
            var bare := if c == '!' then Bang else if c == '=' then Equal
                        else if c == '<' then Less else Greater;
            var equal := if c == '!' then BangEqual else if c == '=' then EqualEqual
                         else if c == '<' then LessEqual else GreaterEqual;
            s.token.Some? && s.error.None? && s.line == line
            && s.token.value.kind == (if eq then equal else bare)
            && s.next == start + (if eq then 2 else 1)
  {
  }

  /**
    "//" skips up to, not including, the next newline (or to the end) and
    produces no token; a '/' not followed by '/' is a Slash.
  */
  lemma SlashOrComment(src: string, start: nat, line: nat)
    requires start < |src| && src[start] == '/'
    ensures src[start..start + 1] == "/"
    ensures var s := ScanStep(src, start, line);
            if start + 1 < |src| && src[start + 1] == '/' then
              s.token.None? && s.error.None? && s.line == line
              && (s.next == |src| || src[s.next] == '\n')
              && forall k :: start <= k < s.next ==> src[k] != '\n'
            else
              s.token == Some(Token(Slash, "/", Value.Nil, line)) && s.next == start + 1
  {
  }

  /**
    A string literal's payload is the text strictly between the quotes and
    its line counts the newlines inside; with no closing quote, "Unterminated
    string." is reported and no token is produced.
  */
  lemma StringLiteral(src: string, start: nat, line: nat)
    requires start < |src| && src[start] == '"'
    ensures forall k :: start < k < Until(src, start + 1, '"') ==> src[k] != '"'
    ensures var s := ScanStep(src, start, line);
            var j := Until(src, start + 1, '"');
            && s.line == line + Newlines(src, start + 1, j)
            && s.next == (if j < |src| then j + 1 else j)
    ensures var s := ScanStep(src, start, line);
            var j := Until(src, start + 1, '"');
            j < |src| ==>
              && s.error.None?
              && s.token == Some(Token(TokenType.Str, src[start..j + 1], Value.Str(src[start + 1..j]), s.line))
    ensures var s := ScanStep(src, start, line);
            var j := Until(src, start + 1, '"');
            j == |src| ==> s.token.None? && s.error == Some(LexError(s.line, "Unterminated string."))
  {
    ScanStepCases(src, start, line);
    StringStepSpan(src, start, line);
    StringStepToken(src, start, line);
    StringStepError(src, start, line);
  }

  /** Where a string literal ends, which line it leaves, and whether it failed. */
  lemma StringStepSpan(src: string, start: nat, line: nat)
    requires start < |src| && src[start] == '"'
    ensures var s := StringStep(src, start, line);
            var j := Until(src, start + 1, '"');
            && s.line == line + Newlines(src, start + 1, j)
            && s.next == (if j < |src| then j + 1 else j)
            && (j < |src| <==> s.token.Some?)
            && (j < |src| <==> s.error.None?)
  {
  }

  /** A closed string literal's token: the quoted text and the text between the quotes. */
  lemma StringStepToken(src: string, start: nat, line: nat)
    requires start < |src| && src[start] == '"'
    ensures var s := StringStep(src, start, line);
            var j := Until(src, start + 1, '"');
            j < |src| ==>
              && s.token.Some?
              && s.token.value.kind == TokenType.Str
              && s.token.value.lexeme == src[start..j + 1]
              && s.token.value.literal == Value.Str(src[start + 1..j])
              && s.token.value.line == s.line
  {
  }

  /** An unclosed string literal reports its error on the line it reached. */
  lemma StringStepError(src: string, start: nat, line: nat)
    requires start < |src| && src[start] == '"'
    ensures var s := StringStep(src, start, line);
            var j := Until(src, start + 1, '"');
            j == |src| ==> s.error == Some(LexError(s.line, "Unterminated string."))
  {
  }

  /** A number literal's step: it ends where `NumberEnd` says and its payload is the value of its text. */
  lemma NumberStepShape(src: string, start: nat, line: nat)
    requires start < |src| && IsDigit(src[start])
    ensures var s := NumberStep(src, start, line);
            var j := NumberEnd(src, start + 1);
            && s.next == j && s.line == line && s.error.None?
            && s.token == Some(Token(TokenType.Number, src[start..j], Value.Number(DecimalValue(src[start..j])), line))
  {
  }

  /**
    A number takes the digit run, and a '.' with a second digit run only when
    a digit follows the dot at once; its payload is the value of its text.
  */
  lemma NumberLiteral(src: string, start: nat, line: nat)
    requires start < |src| && IsDigit(src[start])
    ensures var s := ScanStep(src, start, line);
            var d := DigitsEnd(src, start);
            s.token.Some? && s.error.None? && s.line == line
            && s.token.value.kind == TokenType.Number
            && s.token.value.literal == Value.Number(DecimalValue(src[start..s.next]))
            && (forall k :: start <= k < d ==> IsDigit(src[k]))
            && (if d + 1 < |src| && src[d] == '.' && IsDigit(src[d + 1]) then
                  s.next == DigitsEnd(src, d + 1)
                else s.next == d)
            && (s.next < |src| ==> !IsDigit(src[s.next]))
  {
    var d := DigitsEnd(src, start + 1);
    assert DigitsEnd(src, start) == d;
  }

  /** A word is a keyword when the table lists it and an Identifier otherwise. */
  lemma IdentifierOrKeyword(src: string, start: nat, line: nat)
    requires start < |src| && IsAlpha(src[start])
    ensures var s := ScanStep(src, start, line);
            var text := src[start..s.next];
            s.token.Some? && s.error.None? && s.line == line
            && s.next == WordEnd(src, start)
            && (s.next < |src| ==> !IsAlphaNumeric(src[s.next]))
            && s.token.value == (match Keyword(text)
                                 case Some(k) => Token(k, text, Value.Str(text), line)
                                 case None => Token(Identifier, text, Value.Nil, line))
  {
    assert WordEnd(src, start) == WordEnd(src, start + 1);
  }

  predicate Unexpected(c: char) {
    SingleCharKind(c).None? && c !in "!=<>/\"\n \r\t" && !IsDigit(c) && !IsAlpha(c)
  }

  /** Any other character is reported at the current line and skipped alone. */
  lemma UnexpectedCharacter(src: string, start: nat, line: nat)
    requires start < |src| && Unexpected(src[start])
    ensures ScanStep(src, start, line) == Step(start + 1, line, None, Some(LexError(line, "Unexpected character.")))
  {
  }

}
