/**
  The scanner: a cursor over the source that pushes tokens as it goes. Each
  method is proved to do what the pure lexical rules of module Lexical say.
  Errors, which the source hands to a callback, are collected in `errors`.
*/
module Scanners {
  import opened Wrappers
  import opened Decimal
  import opened Tokens
  import opened Lexical
  import LexicalProperties
  import opened Scanning

  class Scanner {
    const source: string
    var tokens: seq<Token>
    var errors: seq<LexError>
    var start: nat
    var current: nat
    var line: nat

    ghost predicate Valid()
      reads this
    {
      start <= current <= |source|
    }

    constructor (source: string)
      ensures this.source == source
      ensures tokens == [] && errors == []
      ensures start == 0 && current == 0 && line == 1
      ensures Valid()
    {
      this.source := source;
      tokens := [];
      errors := [];
      start := 0;
      current := 0;
      line := 1;
    }

    /**
      Scans the rest of the source and appends the end marker. On a fresh
      scanner the tokens and errors are those of `Scan(source)`.
    */
    method ScanTokens() returns (result: seq<Token>)
      requires Valid()
      modifies this
      ensures Valid()
      ensures tokens == old(tokens) + ScanFrom(source, old(current), old(line)).tokens
      ensures errors == old(errors) + ScanFrom(source, old(current), old(line)).errors
      ensures |tokens| >= 1 && tokens[|tokens| - 1] == EofToken(line)
      ensures result == tokens
    {
      while !IsAtEnd()
        invariant Valid()
        invariant tokens + ScanFrom(source, current, line).tokens
                  == old(tokens) + ScanFrom(source, old(current), old(line)).tokens
        invariant errors + ScanFrom(source, current, line).errors
                  == old(errors) + ScanFrom(source, old(current), old(line)).errors
        decreases |source| - current
      {
        // We are at the beginning of the next lexeme.
        start := current;
        ghost var s := ScanStep(source, current, line);
        ghost var rest := ScanFrom(source, s.next, s.line);
        Scanning.ScanFromUnfold(source, current, line);
        ghost var toks, errs := tokens, errors;
        var err := ScanToken();
        if err.Some? {
          errors := errors + [err.value];
        }
        assert errors == errs + OptionSeq(s.error);
        Scanning.Regroup(toks, OptionSeq(s.token), rest.tokens);
        Scanning.Regroup(errs, OptionSeq(s.error), rest.errors);
      }
      tokens := tokens + [EofToken(line)];
      result := tokens;
    }

    /** Scans one lexeme starting at `current` (== `start`). */
    method ScanToken() returns (err: Option<LexError>)
      requires Valid() && start == current < |source|
      modifies this`tokens, this`current, this`line
      ensures var s := ScanStep(source, old(current), old(line));
              Valid() && current == s.next && line == s.line
              && tokens == old(tokens) + OptionSeq(s.token) && err == s.error
    {
      err := None;
      ghost var s := ScanStep(source, current, line);
      LexicalProperties.ScanStepCases(source, current, line);
      var c := Advance();
      var single := SingleCharKind(c);
      if single.Some? {
        AddToken(single.value, Value.Nil);
      } else if c in "!=<>" {
        var m := Match('=');
        AddToken(OperatorKind(c, m), Value.Nil);
      } else if c == '/' {
        var m := Match('/');
        if m {
          SkipComment();
        } else {
          AddToken(Slash, Value.Nil);
        }
      } else if c == '"' {
        err := StringLiteral();
      } else if c == '\n' {
        line := line + 1;
      } else if IsDigit(c) {
        NumberLiteral();
      } else if IsAlpha(c) {
        IdentifierLiteral();
      } else if c == ' ' || c == '\r' || c == '\t' {
      } else {
        err := Some(LexError(line, "Unexpected character."));
      }
    }

    /** A comment goes until the end of the line; the newline itself is left for the next lexeme. */
    method SkipComment()
      requires Valid() && start < current
      modifies this`current
      ensures Valid() && start < current
      ensures current == Until(source, old(current), '\n')
    {
      while Peek() != '\n' && !IsAtEnd()
        invariant Valid() && old(current) <= current
        invariant Until(source, current, '\n') == Until(source, old(current), '\n')
        decreases |source| - current
      {
        var _ := Advance();
      }
    }

    function IsAtEnd(): (b: bool)
      reads this
      ensures b <==> current >= |source|
    {
      current >= |source|
    }

    /** Pushes a token spelling the text from `start` to `current`. */
    method AddToken(kind: TokenType, literal: Value)
      requires Valid()
      modifies this`tokens
      ensures tokens == old(tokens) + [Token(kind, source[start..current], literal, line)]
    {
      var lexeme := source[start..current];
      tokens := tokens + [Token(kind, lexeme, literal, line)];
    }

    method Advance() returns (c: char)
      requires current < |source|
      modifies this`current
      ensures current == old(current) + 1 && c == source[old(current)]
    {
      current := current + 1;
      c := source[current - 1];
    }

    /** Consumes the next character only when it is `expected`. */
    method Match(expected: char) returns (matched: bool)
      modifies this`current
      ensures matched <==> old(current) < |source| && source[old(current)] == expected
      ensures current == if matched then old(current) + 1 else old(current)
    {
      if IsAtEnd() {
        return false;
      }
      if source[current] != expected {
        return false;
      }
      current := current + 1;
      return true;
    }

    /** The next character, or '\0' at the end. */
    function Peek(): (c: char)
      reads this
      ensures current < |source| ==> c == source[current]
      ensures current >= |source| ==> c == '\0'
    {
      if IsAtEnd() then '\0' else source[current]
    }

    /** The character after the next one, or '\0' past the end. */
    function PeekNext(): (c: char)
      reads this
      ensures current + 1 < |source| ==> c == source[current + 1]
      ensures current + 1 >= |source| ==> c == '\0'
    {
      if current + 1 >= |source| then '\0' else source[current + 1]
    }

    /** The body of a string literal, after its opening quote. */
    method StringLiteral() returns (err: Option<LexError>)
      requires Valid() && current == start + 1 && source[start] == '"'
      modifies this`tokens, this`current, this`line
      ensures var s := StringStep(source, start, old(line));
              Valid() && current == s.next && line == s.line
              && tokens == old(tokens) + OptionSeq(s.token) && err == s.error
    {
      SkipStringText();
      LexicalProperties.StringStepSpan(source, start, old(line));
      LexicalProperties.StringStepToken(source, start, old(line));
      LexicalProperties.StringStepError(source, start, old(line));

      if IsAtEnd() {
        return Some(LexError(line, "Unterminated string."));
      }

      var _ := Advance();

      var s := source[start + 1..current - 1];
      ghost var step := StringStep(source, start, old(line));
      LexicalProperties.SomeToken(step.token, TokenType.Str, source[start..current], Value.Str(s), line);
      AddToken(TokenType.Str, Value.Str(s));
      return None;
    }

    /** Consumes a string literal's text up to its closing quote, counting its newlines. */
    method SkipStringText()
      requires Valid() && current == start + 1
      modifies this`current, this`line
      ensures Valid() && current == Until(source, start + 1, '"')
      ensures line == old(line) + Newlines(source, start + 1, current)
    {
      ghost var stop := Until(source, current, '"');
      while Peek() != '"' && !IsAtEnd()
        invariant Valid() && start < current
        invariant Until(source, current, '"') == stop
        invariant line == old(line) + Newlines(source, start + 1, current)
        decreases |source| - current
      {
        if Peek() == '\n' {
          line := line + 1;
        }
        var _ := Advance();
      }
    }

    /** Consumes the run of digits at `current`; both digit loops of a number. */
    method SkipDigits()
      requires Valid()
      modifies this`current
      ensures Valid() && old(current) <= current
      ensures current == DigitsEnd(source, old(current))
    {
      while IsDigit(Peek())
        invariant Valid() && old(current) <= current
        invariant DigitsEnd(source, current) == DigitsEnd(source, old(current))
        decreases |source| - current
      {
        var _ := Advance();
      }
    }

    /** The rest of a number literal, after its first digit. */
    method NumberLiteral()
      requires Valid() && current == start + 1 && IsDigit(source[start])
      modifies this`tokens, this`current
      ensures var s := NumberStep(source, start, line);
              Valid() && current == s.next && tokens == old(tokens) + OptionSeq(s.token)
    {
      SkipNumberText();
      LexicalProperties.NumberStepShape(source, start, line);

      var value := DecimalValue(source[start..current]);
      AddToken(TokenType.Number, Value.Number(value));
    }

    /** Consumes the digits of a number, and a '.' with more digits when a digit follows the dot. */
    method SkipNumberText()
      requires Valid() && start < current
      modifies this`current
      ensures Valid() && start < current
      ensures current == NumberEnd(source, old(current))
    {
      SkipDigits();

      // Look for a fractional part.
      if Peek() == '.' && IsDigit(PeekNext()) {
        // Consume the "."
        var _ := Advance();
        SkipDigits();
      }
    }

    /** The rest of an identifier or keyword, after its first letter. */
    method IdentifierLiteral()
      requires Valid() && current == start + 1 && IsAlpha(source[start])
      modifies this`tokens, this`current
      ensures var s := WordStep(source, start, line);
              Valid() && current == s.next && tokens == old(tokens) + OptionSeq(s.token)
    {
      SkipWord();

      var text := source[start..current];
      match Keyword(text) {
        case Some(k) => AddToken(k, Value.Str(text));
        case None => AddToken(Identifier, Value.Nil);
      }
    }

    /** Consumes the run of letters, digits and underscores at `current`. */
    method SkipWord()
      requires Valid() && start < current
      modifies this`current
      ensures Valid() && start < current
      ensures current == WordEnd(source, old(current))
    {
      while IsAlphaNumeric(Peek())
        invariant Valid() && old(current) <= current
        invariant WordEnd(source, current) == WordEnd(source, old(current))
        decreases |source| - current
      {
        var _ := Advance();
      }
    }
  }
}
