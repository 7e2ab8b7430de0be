/** What one call of `NextToken`, and a sequence of calls, is proved to do. */
module ScanProperties {
  import opened Wrappers
  import opened Token
  import opened Scan

  /** The NEW_LINE token the newline case returns. */
  const NewLineToken: Token := Token(NewLine, NewLineLiteral)

  /** The kinds `NextToken` can return: all but ORDERED_LIST and EOF. */
  predicate ProducedKind(k: TokenType) {
    !k.OrderedList? && !k.Eof?
  }

  /** A single call as a run of length one. */
  lemma RunOne(s: ByteString, c: Cursor, tok: Token, next: Cursor)
    requires c.position <= |s| && Step(s, c) == (tok, next)
    ensures Run(s, c, 1) == Some(([tok], next))
  {
    assert Run(s, next, 0) == Some(([], next));
    assert [tok] + [] == [tok];
  }

  /** A call followed by `n` more: the first token is put in front of the others. */
  lemma RunCons(s: ByteString, c: Cursor, n: nat, tok: Token, next: Cursor, toks: seq<Token>, last: Cursor)
    requires c.position <= |s| && Step(s, c) == (tok, next)
    requires Run(s, next, n) == Some((toks, last))
    ensures Run(s, c, n + 1) == Some(([tok] + toks, last))
  {
  }

  /** A trace of calls, each starting where the previous one left off, is a run of that many calls. */
  lemma {:induction false} RunTrace(s: ByteString, cs: seq<Cursor>, toks: seq<Token>)
    requires |cs| == |toks| + 1
    requires forall i | 0 <= i < |toks| :: cs[i].position <= |s| && Step(s, cs[i]) == (toks[i], cs[i + 1])
    ensures Run(s, cs[0], |toks|) == Some((toks, cs[|toks|]))
    decreases |toks|
  {
    if toks != [] {
      forall i | 0 <= i < |toks| - 1
        ensures cs[1..][i].position <= |s| && Step(s, cs[1..][i]) == (toks[1..][i], cs[1..][i + 1])
      {
        assert cs[1..][i] == cs[i + 1] && cs[1..][i + 1] == cs[i + 2] && toks[1..][i] == toks[i + 1];
      }
      RunTrace(s, cs[1..], toks[1..]);
      assert Step(s, cs[0]) == (toks[0], cs[1]);
      RunCons(s, cs[0], |toks| - 1, toks[0], cs[1], toks[1..], cs[|toks|]);
      assert [toks[0]] + toks[1..] == toks;
    }
  }

  /** A scan over a stretch `x` of bytes it continues over ends right after `x` when the byte there stops it. */
  lemma {:induction false} RunEndOver(s: ByteString, p: nat, x: ByteString, k: RunKind)
    requires p + |x| <= |s| && s[p..p + |x|] == x
    requires forall c | c in x :: InRun(k, c)
    requires !InRun(k, CharAt(s, p + |x|))
    ensures RunEnd(s, p, k) == p + |x|
    decreases |x|
  {
    if x != [] {
      assert s[p] == x[0] && x[0] in x;
      assert s[p + 1..p + |x|] == x[1..];
      RunEndOver(s, p + 1, x[1..], k);
    }
  }

  /** On a newline: NEW_LINE with literal " ", recorded as the previous token, cursor one byte on. */
  lemma StepNewLine(s: ByteString, c: Cursor)
    requires c.position < |s| && s[c.position] == '\n'
    ensures Step(s, c) == (NewLineToken, Cursor(c.position + 1, Some(NewLineToken)))
  {
  }

  /** `prevToken` is either left alone or set to the NEW_LINE token, so the start-of-line test is preserved. */
  lemma StepKeepsLineStart(s: ByteString, c: Cursor)
    requires c.position <= |s|
    ensures var next := Step(s, c).1;
      (next.prevToken == c.prevToken || next.prevToken == Some(NewLineToken)) &&
      (AtLineStart(c.prevToken) ==> AtLineStart(next.prevToken))
  {
  }

  /**
   * On a `#` at the start of a line: the level is the length of the `#` run (at least 1), the
   * literal is the rest of the line, and the cursor is left on the newline or sentinel that ends it;
   * levels 1 to 3 give H1 to H3 and any larger level ILLEGAL.
   */
  lemma StepHeader(s: ByteString, c: Cursor)
    requires c.position < |s| && s[c.position] == '#' && AtLineStart(c.prevToken)
    ensures var (tok, next) := Step(s, c);
      var level := RunEnd(s, c.position, Hashes) - c.position;
      1 <= level &&
      next == Cursor(RunEnd(s, c.position + level, LineBody), c.prevToken) &&
      (CharAt(s, next.position) == '\n' || CharAt(s, next.position) == Nul) &&
      (level <= 3 ==> tok.kind.IsHeading() && HeadingLevel(tok.kind) == level &&
                      tok.literal == s[c.position + level..next.position]) &&
      (3 < level ==> tok == Token(Illegal, TooManyHeaderLevels))
  {
  }

  /**
   * On a `-` at the start of a line: UL whose literal follows the `-`/space run and is the
   * maximal run free of `*`, newline and sentinel, possibly empty.
   */
  lemma StepListItem(s: ByteString, c: Cursor)
    requires c.position < |s| && s[c.position] == '-' && AtLineStart(c.prevToken)
    ensures var (tok, next) := Step(s, c);
      var d := RunEnd(s, c.position, Delimiters);
      c.position < d && tok.kind == UnorderedList && next == Cursor(RunEnd(s, d, TextBody), c.prevToken) &&
      tok.literal == s[d..next.position] && !InRun(TextBody, CharAt(s, next.position))
  {
  }

  /** A TEXT run, through the scan loop shared by text and italic. */
  lemma StepText(s: ByteString, c: Cursor)
    requires c.position <= |s|
    requires var ch := CharAt(s, c.position); ch != '\n' && ch != '#' && ch != '-' && ch != '*'
    ensures var (tok, next) := Step(s, c);
      tok.kind == Text && next.prevToken == c.prevToken &&
      c.position <= next.position <= |s| && tok.literal == s[c.position..next.position] &&
      (forall m :: 0 <= m < |tok.literal| ==> InRun(TextBody, tok.literal[m])) &&
      !InRun(TextBody, CharAt(s, next.position))
  {
    var (tok, next) := Step(s, c);
    assert forall m :: 0 <= m < |tok.literal| ==> tok.literal[m] == CharAt(s, c.position + m);
  }

  /**
   * `*` followed by anything but a space or `*`: ITALIC over the text run after the `*`; a
   * closing `*` is left under the cursor.
   */
  lemma StepItalic(s: ByteString, c: Cursor)
    requires c.position < |s| && s[c.position] == '*'
    requires CharAt(s, c.position + 1) != ' ' && CharAt(s, c.position + 1) != '*'
    ensures var (tok, next) := Step(s, c);
      tok.kind == Italic && next.prevToken == c.prevToken &&
      tok.literal == s[c.position + 1..next.position] &&
      (forall m :: 0 <= m < |tok.literal| ==> InRun(TextBody, tok.literal[m])) &&
      (CharAt(s, next.position) == '*' || CharAt(s, next.position) == '\n' || CharAt(s, next.position) == Nul)
  {
    TextRunSound(s, c.position + 1);
  }

  /**
   * `*` followed by a space: the `*` is dropped and a TEXT run starts at the space; it stops at the
   * next `*`, so a lone `*` inside text splits it into two TEXT tokens.
   */
  lemma StepStarSpace(s: ByteString, c: Cursor)
    requires c.position + 1 < |s| && s[c.position] == '*' && s[c.position + 1] == ' '
    ensures var (tok, next) := Step(s, c);
      tok.kind == Text && next.prevToken == c.prevToken &&
      tok.literal == s[c.position + 1..next.position] && |tok.literal| >= 1 && tok.literal[0] == ' ' &&
      !InRun(TextBody, CharAt(s, next.position))
  {
  }

  /** The bold scan from `p` reaches the first `**` when no `*`, newline or sentinel lies before it. */
  lemma {:induction false} BoldEndPlain(s: ByteString, p: nat, q: nat)
    requires p <= q && q + 1 < |s| && s[q] == '*' && s[q + 1] == '*'
    requires AllInRun(s, p, q, TextBody)
    ensures BoldEnd(s, p) == Closed(q)
    decreases q - p
  {
    if p < q {
      assert InRun(TextBody, CharAt(s, p));
      BoldEndPlain(s, p + 1, q);
    }
  }

  /** With no `*` before the end of the line, the bold scan stops on that line's end. */
  lemma {:induction false} BoldEndNoStar(s: ByteString, p: nat)
    requires p <= |s|
    requires forall m :: p <= m < RunEnd(s, p, LineBody) ==> CharAt(s, m) != '*'
    ensures BoldEnd(s, p) == Unclosed(RunEnd(s, p, LineBody))
    decreases |s| - p
  {
    if InRun(LineBody, CharAt(s, p)) {
      BoldEndNoStar(s, p + 1);
    }
  }

  /** `**`: the call is the bold scan from the byte after the pair. */
  lemma StepBoldOpen(s: ByteString, c: Cursor)
    requires c.position + 1 < |s| && s[c.position] == '*' && s[c.position + 1] == '*'
    ensures Step(s, c) == (BoldScan(s, c.position + 2).0, Cursor(BoldScan(s, c.position + 2).1, c.prevToken))
  {
  }

  /** A bold scan over `x` and a closing `**`, with `x` free of `*`, newline and NUL, gives BOLD `x`. */
  lemma BoldScanOver(s: ByteString, p: nat, x: ByteString)
    requires p + |x| + 2 <= |s|
    requires s[p..p + |x| + 2] == x + "**"
    requires forall b | b in x :: InRun(TextBody, b)
    ensures BoldScan(s, p) == (Token(Bold, x), p + |x| + 2)
  {
    var q := p + |x|;
    assert s[q] == '*' && s[q + 1] == '*' by {
      assert s[p..q + 2][|x|] == '*' && s[p..q + 2][|x| + 1] == '*';
    }
    forall m | p <= m < q ensures InRun(TextBody, CharAt(s, m)) {
      assert s[m] == s[p..q + 2][m - p] == x[m - p];
      assert x[m - p] in x;
    }
    BoldEndPlain(s, p, q);
    assert s[p..q] == x by {
      forall m | 0 <= m < |x| ensures s[p..q][m] == x[m] {
        assert s[p + m] == s[p..q + 2][m];
      }
    }
  }

  /** `**x**` with `x` free of `*`, newline and NUL gives BOLD `x`, the cursor just past the closing pair. */
  lemma StepBold(s: ByteString, c: Cursor, x: ByteString)
    requires c.position + |x| + 4 <= |s|
    requires s[c.position..c.position + |x| + 4] == "**" + x + "**"
    requires forall b | b in x :: InRun(TextBody, b)
    ensures Step(s, c) == (Token(Bold, x), Cursor(c.position + |x| + 4, c.prevToken))
  {
    BoldSpanParts(s, c.position, x);
    BoldScanOver(s, c.position + 2, x);
    StepBoldOpen(s, c);
  }

  lemma BoldSpanParts(s: ByteString, p: nat, x: ByteString)
    requires p + |x| + 4 <= |s| && s[p..p + |x| + 4] == "**" + x + "**"
    ensures s[p] == '*' && s[p + 1] == '*' && s[p + 2..p + |x| + 4] == x + "**"
  {
    var w := s[p..p + |x| + 4];
    assert s[p] == w[0] && s[p + 1] == w[1];
    assert s[p + 2..p + |x| + 4] == w[2..];
  }

  /**
   * `**` with no `*` before the next newline or end: ILLEGAL with the unmatched-modifier message,
   * the cursor on that newline or end.
   */
  lemma StepBoldUnclosed(s: ByteString, c: Cursor)
    requires c.position + 1 < |s| && s[c.position] == '*' && s[c.position + 1] == '*'
    requires forall m :: c.position + 2 <= m < RunEnd(s, c.position + 2, LineBody) ==> CharAt(s, m) != '*'
    ensures Step(s, c) == (Token(Illegal, UnmatchedModifier), Cursor(RunEnd(s, c.position + 2, LineBody), c.prevToken))
  {
    BoldEndNoStar(s, c.position + 2);
    StepBoldOpen(s, c);
  }

  /** A bold scan ends one past the input only by stepping over a `*` in the last byte. */
  lemma {:induction false} BoldEndOverrun(s: ByteString, p: nat)
    requires p <= |s|
    requires BoldEnd(s, p) == Unclosed(|s| + 1)
    ensures 0 < |s| && s[|s| - 1] == '*'
    decreases |s| - p
  {
    var c := CharAt(s, p);
    if c == '*' && CharAt(s, p + 1) != '*' {
      if p + 2 <= |s| {
        BoldEndOverrun(s, p + 2);
      }
    } else if !IsNewLine(c) && c != Nul {
      BoldEndOverrun(s, p + 1);
    }
  }

  /**
   * Where the cursor can go: never more than one past the end, and one past the end only after an
   * ILLEGAL unclosed bold whose scan stepped over a `*` in the last byte — the state from which the
   * next call panics.
   */
  lemma StepBounds(s: ByteString, c: Cursor)
    requires c.position <= |s|
    ensures var (tok, next) := Step(s, c);
      next.position <= |s| + 1 &&
      (next.position == |s| + 1 ==> tok == Token(Illegal, UnmatchedModifier) && s[|s| - 1] == '*')
  {
    var p := c.position;
    if CharAt(s, p) == '*' && CharAt(s, p + 1) == '*' && BoldEnd(s, p + 2).Unclosed? && BoldEnd(s, p + 2).stop == |s| + 1 {
      BoldEndOverrun(s, p + 2);
    }
  }

  /** At the sentinel (end of input or a NUL byte) a call returns TEXT "" and changes nothing. */
  lemma StepAtSentinel(s: ByteString, c: Cursor)
    requires c.position <= |s| && CharAt(s, c.position) == Nul
    ensures Step(s, c) == (Token(Text, []), c)
  {
  }

  /** Off the sentinel, a call at the start of a line moves the cursor forward. */
  lemma StepProgress(s: ByteString, c: Cursor)
    requires c.position <= |s| && CharAt(s, c.position) != Nul && AtLineStart(c.prevToken)
    ensures Step(s, c).1.position > c.position
  {
  }

  /** No call returns ORDERED_LIST or EOF; at the start of a line none returns the one-byte ILLEGAL token. */
  lemma StepKinds(s: ByteString, c: Cursor)
    requires c.position <= |s|
    ensures ProducedKind(Step(s, c).0.kind)
    ensures AtLineStart(c.prevToken) ==>
              Step(s, c).0 != Token(Illegal, "#") && Step(s, c).0 != Token(Illegal, "-")
  {
    assert TooManyHeaderLevels != "#" && TooManyHeaderLevels != "-" by {
      assert |TooManyHeaderLevels| != 1;
    }
    assert UnmatchedModifier != "#" && UnmatchedModifier != "-" by {
      assert |UnmatchedModifier| != 1;
    }
  }

  /**
   * Over any run of calls from the start of a line: the start-of-line test holds before every call,
   * no token has kind ORDERED_LIST or EOF, and the ILLEGAL tokens for a misplaced `#` or `-` never occur.
   */
  lemma {:induction false} RunInvariant(s: ByteString, c: Cursor, n: nat)
    requires AtLineStart(c.prevToken)
    ensures Run(s, c, n).Some? ==>
              var (toks, last) := Run(s, c, n).value;
              AtLineStart(last.prevToken) &&
              forall i :: 0 <= i < |toks| ==>
                ProducedKind(toks[i].kind) && toks[i] != Token(Illegal, "#") && toks[i] != Token(Illegal, "-")
    decreases n
  {
    if n > 0 && c.position <= |s| {
      StepKeepsLineStart(s, c);
      StepKinds(s, c);
      RunInvariant(s, Step(s, c).1, n - 1);
    }
  }

  /** Every token a lexer made by `New` returns has one of the nine produced kinds and is never a misplaced-marker ILLEGAL. */
  lemma LexInvariant(s: ByteString, n: nat)
    ensures Lex(s, n).Some? ==>
              forall i :: 0 <= i < |Lex(s, n).value| ==>
                ProducedKind(Lex(s, n).value[i].kind) &&
                Lex(s, n).value[i] != Token(Illegal, "#") && Lex(s, n).value[i] != Token(Illegal, "-")
  {
    RunInvariant(s, Start, n);
  }

  /**
   * On an input without NUL bytes, `|s| - p` calls from the start of a line at `p` that do not panic
   * leave the cursor at or past the end: lexing reaches the end of the input.
   */
  lemma {:induction false} RunReachesEnd(s: ByteString, c: Cursor, n: nat)
    requires forall i :: 0 <= i < |s| ==> s[i] != Nul
    requires c.position <= |s| && AtLineStart(c.prevToken) && |s| - c.position <= n
    requires Run(s, c, n).Some?
    ensures Run(s, c, n).value.1.position >= |s|
    decreases n
  {
    if c.position < |s| {
      StepProgress(s, c);
      StepKeepsLineStart(s, c);
      var next := Step(s, c).1;
      StepBounds(s, c);
      if next.position <= |s| {
        RunReachesEnd(s, next, n - 1);
      } else {
        RunPastEnd(s, next, n - 1);
      }
    } else {
      RunAtEnd(s, c, n);
    }
  }

  /** Once the cursor is on the end of the input, every further call returns TEXT "" and leaves it there. */
  lemma {:induction false} RunAtEnd(s: ByteString, c: Cursor, n: nat)
    requires c.position == |s|
    ensures Run(s, c, n).Some?
    ensures var (toks, last) := Run(s, c, n).value;
      last == c && |toks| == n && forall i :: 0 <= i < n ==> toks[i] == Token(Text, [])
    decreases n
  {
    if n > 0 {
      StepAtSentinel(s, c);
      RunAtEnd(s, c, n - 1);
    }
  }

  /** Past the end, the next call panics. */
  lemma RunPastEnd(s: ByteString, c: Cursor, n: nat)
    requires c.position > |s|
    ensures Run(s, c, n).Some? ==> n == 0 && Run(s, c, n).value.1 == c
  {
  }
}
