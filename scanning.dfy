/** A whole scan: the lexemes of the source one after another, then the end marker. */
module Scanning {
  import opened Wrappers
  import opened Tokens
  import opened Lexical
  import opened LexicalProperties

  /** Result of a whole scan: the tokens in order and every error reported. */
  datatype Lexed = Lexed(tokens: seq<Token>, errors: seq<LexError>)

  function EofToken(line: nat): Token {
    Token(Eof, "", Value.Nil, line)
  }

  /**
    Scanning the rest of the source from `pos`, at line `line`. The result
    ends with exactly one end marker, whose lexeme is empty and whose line
    counts every newline of the rest of the source.
  */
  function ScanFrom(src: string, pos: nat, line: nat): (r: Lexed)
    requires pos <= |src|
    ensures |r.tokens| >= 1 && r.tokens[|r.tokens| - 1] == EofToken(line + Newlines(src, pos, |src|))
    ensures forall k :: 0 <= k < |r.tokens| - 1 ==> r.tokens[k].kind != Eof
    decreases |src| - pos
  {
    if pos == |src| then Lexed([EofToken(line)], [])
    else
      var s := ScanStep(src, pos, line);
      var rest := ScanFrom(src, s.next, s.line);
      StepKeepsLineCount(src, pos, line);
      ScanStepToken(src, pos, line);
      LastOfConcat(OptionSeq(s.token), rest.tokens);
      NoEofBefore(s.token, rest.tokens);
      Lexed(OptionSeq(s.token) + rest.tokens, OptionSeq(s.error) + rest.errors)
  }

  /**
    Every scan, of the empty source too, ends with the one end marker, at
    line 1 plus the number of newlines in the source.
  */
  function Scan(src: string): (r: Lexed)
    ensures |r.tokens| >= 1 && r.tokens[|r.tokens| - 1] == EofToken(1 + Newlines(src, 0, |src|))
    ensures forall k :: 0 <= k < |r.tokens| - 1 ==> r.tokens[k].kind != Eof
    ensures src == [] ==> r == Lexed([EofToken(1)], [])
  {
    ScanFrom(src, 0, 1)
  }

  /** Source spans of the tokens of `ScanFrom`, the final end marker excepted. */
  function SpansFrom(src: string, pos: nat, line: nat): seq<(nat, nat)>
    requires pos <= |src|
    decreases |src| - pos
  {
    if pos == |src| then []
    else
      var s := ScanStep(src, pos, line);
      (if s.token.Some? then [(pos, s.next)] else []) + SpansFrom(src, s.next, s.line)
  }

  lemma LastOfConcat<T>(a: seq<T>, b: seq<T>)
    requires |b| >= 1
    ensures |a + b| >= 1 && (a + b)[|a + b| - 1] == b[|b| - 1]
  {
  }

  /** Putting a token that is not the end marker in front adds no end marker before the last token. */
  lemma NoEofBefore(token: Option<Token>, rest: seq<Token>)
    requires token.Some? ==> token.value.kind != Eof
    requires |rest| >= 1
    requires forall k :: 0 <= k < |rest| - 1 ==> rest[k].kind != Eof
    ensures var ts := OptionSeq(token) + rest;
            forall k :: 0 <= k < |ts| - 1 ==> ts[k].kind != Eof
  {
    var head := OptionSeq(token);
    var ts := head + rest;
    forall k | 0 <= k < |ts| - 1
      ensures ts[k].kind != Eof
    {
      if k < |head| {
        assert ts[k] == head[k];
      } else {
        assert ts[k] == rest[k - |head|];
      }
    }
  }

  /** Concatenation regroups freely. */
  lemma Regroup<T>(a: seq<T>, b: seq<T>, c: seq<T>)
    ensures (a + b) + c == a + (b + c)
  {
  }

  /** `ScanFrom` away from the end: one step, then the rest. */
  lemma ScanFromUnfold(src: string, pos: nat, line: nat)
    requires pos < |src|
    ensures var s := ScanStep(src, pos, line);
            var rest := ScanFrom(src, s.next, s.line);
            ScanFrom(src, pos, line) == Lexed(OptionSeq(s.token) + rest.tokens, OptionSeq(s.error) + rest.errors)
  {
  }

  /**
    The tokens before the end marker have one span each; each span is
    non-empty, lies in the source, spells the token's lexeme, and the spans
    follow one another without overlapping.
  */
  lemma {:induction false} SpansFromLexemes(src: string, pos: nat, line: nat)
    requires pos <= |src|
    ensures var ts := ScanFrom(src, pos, line).tokens;
            var sp := SpansFrom(src, pos, line);
            |sp| == |ts| - 1
            && (forall k :: 0 <= k < |sp| ==>
                  pos <= sp[k].0 < sp[k].1 <= |src| && ts[k].lexeme == src[sp[k].0..sp[k].1])
            && (forall k :: 0 <= k < |sp| - 1 ==> sp[k].1 <= sp[k + 1].0)
    decreases |src| - pos
  {
    if pos < |src| {
      var s := ScanStep(src, pos, line);
      SpansFromLexemes(src, s.next, s.line);
      ScanStepToken(src, pos, line);
    }
  }

  lemma ScanSpans(src: string)
    ensures var ts := Scan(src).tokens;
            var sp := SpansFrom(src, 0, 1);
            |sp| == |ts| - 1
            && (forall k :: 0 <= k < |sp| ==>
                  sp[k].0 < sp[k].1 <= |src| && ts[k].lexeme == src[sp[k].0..sp[k].1])
            && (forall k :: 0 <= k < |sp| - 1 ==> sp[k].1 <= sp[k + 1].0)
  {
    SpansFromLexemes(src, 0, 1);
  }

  /** Scanning does not stop at an error: the tokens after it are still produced. */
  lemma {:induction false} ScanContinuesAfterError(src: string, pos: nat, line: nat)
    requires pos < |src| && Unexpected(src[pos])
    ensures ScanFrom(src, pos, line)
            == Lexed(ScanFrom(src, pos + 1, line).tokens,
                     [LexError(line, "Unexpected character.")] + ScanFrom(src, pos + 1, line).errors)
  {
    UnexpectedCharacter(src, pos, line);
  }
}
