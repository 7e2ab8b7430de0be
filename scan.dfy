/**
 * The pure part of the markdown lexer: the token constructors, the byte classes its loops test,
 * and one specification function per scanner, each giving the token a scanner returns and the
 * position where it leaves the cursor. `Step` composes them into one call of `NextToken`.
 */
module Scan {
  import opened Wrappers
  import opened Token

  /** The end-of-input sentinel: `ch` is 0 past the end and on an embedded NUL byte. */
  const Nul: Byte := 0 as char

  const NewLineLiteral: ByteString := " "
  const TooManyHeaderLevels: ByteString := "Too many headerlevels"
  const UnmatchedModifier: ByteString := "did not receive matching closing modifier"

  /** The token built from a kind and a string literal. */
  function NewTokenStringLiteral(tokenType: TokenType, literal: ByteString): (t: Token)
    ensures t.kind == tokenType && t.literal == literal
  {
    Token(tokenType, literal)
  }

  /** The token built from a kind and a single byte: the one-byte string token. */
  function NewToken(tokenType: TokenType, ch: Byte): (t: Token)
    ensures t == NewTokenStringLiteral(tokenType, [ch])
  {
    Token(tokenType, [ch])
  }

  /** The newline test of `readHeader`, `readListItem` and `parseBoldText`. */
  function IsNewLine(ch: Byte): (b: bool)
    ensures b ==> ch != Nul && ch != '*'
  {
    ch == '\n'
  }

  /**
   * The token for a heading of the given level: H1, H2 or H3 carrying the literal for levels
   * 1 to 3, an ILLEGAL token with a fixed message for every other level.
   */
  function CreateHeaderToken(headerLevel: int, literal: ByteString): (t: Token)
    ensures t.kind.IsHeading() <==> 1 <= headerLevel <= 3
    ensures HeadingKind(headerLevel).Some? ==> t == Token(HeadingKind(headerLevel).value, literal)
    ensures HeadingKind(headerLevel).None? ==> t == Token(Illegal, TooManyHeaderLevels)
    ensures t.kind.IsHeading() ==> HeadingLevel(t.kind) == headerLevel
  {
    match headerLevel
    case 1 => NewTokenStringLiteral(H1, literal)
    case 2 => NewTokenStringLiteral(H2, literal)
    case 3 => NewTokenStringLiteral(H3, literal)
    case _ => NewTokenStringLiteral(Illegal, TooManyHeaderLevels)
  }

  /** The byte `readChar` loads for position `i`: the input byte, or 0 at and past the end. */
  function CharAt(s: ByteString, i: int): (c: Byte)
    requires 0 <= i
    ensures i < |s| ==> c == s[i]
    ensures |s| <= i ==> c == Nul
  {
    if i >= |s| then Nul else s[i]
  }

  /** The bytes a scanning loop of the lexer continues over. */
  datatype RunKind =
    | Hashes      // the heading marker run of `readHeader`
    | LineBody    // the heading literal: up to a newline or the sentinel
    | Delimiters  // the `-` and space run that opens a list item
    | TextBody    // text, list-item and italic literals: up to `*`, a newline or the sentinel

  predicate InRun(k: RunKind, c: Byte) {
    match k
    case Hashes => c == '#'
    case LineBody => !IsNewLine(c) && c != Nul
    case Delimiters => c == '-' || c == ' '
    case TextBody => c != '*' && c != Nul && !IsNewLine(c)
  }

  /** True when `s[i..j]` holds only bytes a run of kind `k` continues over. */
  ghost predicate AllInRun(s: ByteString, i: nat, j: nat, k: RunKind)
    requires i <= j
  {
    forall m :: i <= m < j ==> InRun(k, CharAt(s, m))
  }

  /**
   * Where a loop of kind `k` that starts at `p` stops: the end of the maximal run of bytes
   * of that kind starting at `p`. It never passes the end of the input it starts within.
   */
  function RunEnd(s: ByteString, p: nat, k: RunKind): (r: nat)
    ensures p <= r
    ensures AllInRun(s, p, r, k)
    ensures !InRun(k, CharAt(s, r))
    ensures p <= |s| ==> r <= |s|
    ensures |s| < p ==> r == p
    decreases |s| - p
  {
    if InRun(k, CharAt(s, p)) then RunEnd(s, p + 1, k) else p
  }

  /** Where the scan of `parseBoldText` ends: on a closing `**` pair, or on a newline or the sentinel. */
  datatype BoldStop = Closed(star: nat) | Unclosed(stop: nat)

  /**
   * The scan loop of `parseBoldText` from position `p`. A `*` not followed by another `*` makes
   * the loop read two bytes, whatever the second one is, so the scan may step over a newline and
   * may end one past the end of the input.
   */
  function BoldEnd(s: ByteString, p: nat): (b: BoldStop)
    requires p <= |s| + 1
    ensures b.Closed? ==> p <= b.star && b.star + 1 < |s| && s[b.star] == '*' && s[b.star + 1] == '*'
    ensures b.Unclosed? ==> p <= b.stop <= |s| + 1 && (CharAt(s, b.stop) == '\n' || CharAt(s, b.stop) == Nul)
    decreases |s| + 1 - p
  {
    var c := CharAt(s, p);
    if IsNewLine(c) || c == Nul then Unclosed(p)
    else if c == '*' then
      if CharAt(s, p + 1) == '*' then Closed(p) else BoldEnd(s, p + 2)
    else BoldEnd(s, p + 1)
  }

  /** A `**` pair starts at `m`. */
  predicate PairAt(s: ByteString, m: nat) {
    CharAt(s, m) == '*' && CharAt(s, m + 1) == '*'
  }

  /**
   * The bold loop stops on the FIRST `**` pair at or after `p`: no pair starts before the one it
   * closes on, and when it stops unclosed no pair starts anywhere before the stop. A byte the loop
   * steps over after a lone `*` is not a `*`, so no pair is missed.
   */
  lemma {:induction false} BoldEndFirst(s: ByteString, p: nat)
    requires p <= |s| + 1
    ensures BoldEnd(s, p).Closed? ==> forall m :: p <= m < BoldEnd(s, p).star ==> !PairAt(s, m)
    ensures BoldEnd(s, p).Unclosed? ==> forall m :: p <= m < BoldEnd(s, p).stop ==> !PairAt(s, m)
    decreases |s| + 1 - p
  {
    var c := CharAt(s, p);
    if IsNewLine(c) || c == Nul {
    } else if c == '*' {
      if CharAt(s, p + 1) != '*' {
        BoldEndFirst(s, p + 2);
        assert !PairAt(s, p) && !PairAt(s, p + 1);
      }
    } else {
      BoldEndFirst(s, p + 1);
      assert !PairAt(s, p);
    }
  }

  /** A scanner's result: the token and the position the cursor is left on. */
  type Scanned = (Token, nat)

  /**
   * `readHeader` at `p`: the number of `#` bytes in the leading run, the rest of the line after
   * them, and the position of the newline or sentinel that ends the line.
   */
  function HeaderScan(s: ByteString, p: nat): (r: (int, ByteString, nat))
    requires p <= |s|
    ensures 0 <= r.0 && p + r.0 <= r.2 <= |s| && |r.1| == r.2 - (p + r.0)
  {
    var h := RunEnd(s, p, Hashes);
    var e := RunEnd(s, h, LineBody);
    (h - p, s[h..e], e)
  }

  /**
   * The level is the length of the maximal `#` run at `p` (at least 1 on a `#`), and the literal is
   * the rest of the line, which ends on a newline or the sentinel.
   */
  lemma HeaderScanSound(s: ByteString, p: nat)
    requires p <= |s|
    ensures var (level, literal, end) := HeaderScan(s, p);
      0 <= level && p + level <= end <= |s| &&
      AllInRun(s, p, p + level, Hashes) && CharAt(s, p + level) != '#' &&
      (CharAt(s, p) == '#' ==> 1 <= level) &&
      literal == s[p + level..end] &&
      AllInRun(s, p + level, end, LineBody) && (CharAt(s, end) == '\n' || CharAt(s, end) == Nul)
  {
  }

  /**
   * `readListItem` at `p`: skip the maximal run of `-` and spaces, then take the maximal run
   * without `*`, newline or sentinel as the literal (possibly empty).
   */
  function ListItemScan(s: ByteString, p: nat): (r: (ByteString, nat))
    requires p <= |s|
    ensures p <= r.1 <= |s| && |r.0| <= r.1 - p
  {
    var d := RunEnd(s, p, Delimiters);
    var e := RunEnd(s, d, TextBody);
    (s[d..e], e)
  }

  /** The literal follows the maximal `-`/space run and is the maximal run of text after it. */
  lemma ListItemScanSound(s: ByteString, p: nat)
    requires p <= |s|
    ensures var (literal, end) := ListItemScan(s, p);
      var d := RunEnd(s, p, Delimiters);
      p <= d <= end <= |s| && AllInRun(s, p, d, Delimiters) && !InRun(Delimiters, CharAt(s, d)) &&
      literal == s[d..end] && AllInRun(s, d, end, TextBody) && !InRun(TextBody, CharAt(s, end))
  {
  }

  /**
   * The loop shared by `readText` and `parseItalic`: the literal is the maximal run from `p` that
   * holds no `*`, newline or sentinel, and the cursor is left on the byte that stops it.
   */
  function TextRun(s: ByteString, p: nat): (r: (ByteString, nat))
    requires p <= |s|
    ensures p <= r.1 <= |s| && |r.0| == r.1 - p
  {
    var e := RunEnd(s, p, TextBody);
    (s[p..e], e)
  }

  /** The text run holds no `*`, newline or NUL, and the byte after it is one of those. */
  lemma TextRunSound(s: ByteString, p: nat)
    requires p <= |s|
    ensures var (literal, end) := TextRun(s, p);
      p <= end <= |s| && literal == s[p..end] &&
      (forall m :: 0 <= m < |literal| ==> literal[m] != '*' && literal[m] != '\n' && literal[m] != Nul) &&
      (CharAt(s, end) == '*' || CharAt(s, end) == '\n' || CharAt(s, end) == Nul)
  {
    var e := RunEnd(s, p, TextBody);
    assert forall m :: 0 <= m < e - p ==> s[p..e][m] == CharAt(s, p + m);
  }

  /** `readText` at `p`: a TEXT token over the text run. */
  function TextScan(s: ByteString, p: nat): (r: Scanned)
    requires p <= |s|
    ensures r.0.kind == Text
  {
    var (literal, end) := TextRun(s, p);
    (NewTokenStringLiteral(Text, literal), end)
  }

  /** `parseItalic` at `p`: an ITALIC token over the text run; a closing `*` is not consumed. */
  function ItalicScan(s: ByteString, p: nat): (r: Scanned)
    requires p <= |s|
    ensures r.0.kind == Italic
  {
    var (literal, end) := TextRun(s, p);
    (NewTokenStringLiteral(Italic, literal), end)
  }

  /**
   * `parseBoldText` at `p` (just after the opening `**`): BOLD over the bytes before the closing
   * pair with the cursor past that pair, or ILLEGAL with the cursor where the scan stopped.
   */
  function BoldScan(s: ByteString, p: nat): (r: Scanned)
    requires p <= |s|
    ensures r.0.kind == Bold || r.0 == Token(Illegal, UnmatchedModifier)
  {
    match BoldEnd(s, p)
    case Closed(q) => (NewTokenStringLiteral(Bold, s[p..q]), q + 2)
    case Unclosed(e) => (NewTokenStringLiteral(Illegal, UnmatchedModifier), e)
  }

  /**
   * BOLD carries the bytes before the first `**` pair, with the cursor past that pair; ILLEGAL
   * leaves the cursor on a newline or the sentinel, at most one past the end of the input, with no
   * `**` pair before it.
   */
  lemma BoldScanSound(s: ByteString, p: nat)
    requires p <= |s|
    ensures var (tok, end) := BoldScan(s, p);
      (tok.kind == Bold ==>
         p + |tok.literal| + 2 == end <= |s| && tok.literal == s[p..end - 2] &&
         s[end - 2] == '*' && s[end - 1] == '*' &&
         forall m :: p <= m < end - 2 ==> !PairAt(s, m)) &&
      (tok.kind != Bold ==>
         p <= end <= |s| + 1 && (CharAt(s, end) == '\n' || CharAt(s, end) == Nul) &&
         forall m :: p <= m < end ==> !PairAt(s, m))
  {
    BoldEndFirst(s, p);
  }

  /**
   * `readModifier` at `p` (on a `*`): a space next gives a TEXT run after the `*`, a second `*`
   * gives bold, anything else gives italic.
   */
  function ModifierScan(s: ByteString, p: nat): (r: Scanned)
    requires p < |s|
    ensures p < r.1
  {
    var c := CharAt(s, p + 1);
    if c == ' ' then TextScan(s, p + 1)
    else if c == '*' then BoldScan(s, p + 2)
    else ItalicScan(s, p + 1)
  }

  /** The state `NextToken` depends on: the position (from which `readPosition` and `ch` follow) and `prevToken`. */
  datatype Cursor = Cursor(position: nat, prevToken: Option<Token>)

  /** The state `New` leaves: position 0 and no previous token. */
  const Start: Cursor := Cursor(0, None)

  /** The start-of-line test of `NextToken`: no previous token, or a NEW_LINE one. */
  predicate AtLineStart(prev: Option<Token>) {
    prev.None? || prev.value.kind == NewLine
  }

  /** One call of `NextToken` from cursor `c`; it needs `c.position <= |s|`, as the slices in its scanners do. */
  function Step(s: ByteString, c: Cursor): (r: (Token, Cursor))
    requires c.position <= |s|
    ensures c.position <= r.1.position
  {
    var p := c.position;
    var ch := CharAt(s, p);
    if ch == '\n' then
      var tok := NewTokenStringLiteral(NewLine, NewLineLiteral);
      (tok, Cursor(p + 1, Some(tok)))
    else if ch == '#' then
      if AtLineStart(c.prevToken) then
        var (level, literal, end) := HeaderScan(s, p);
        (CreateHeaderToken(level, literal), Cursor(end, c.prevToken))
      else
        (NewToken(Illegal, ch), c)
    else if ch == '-' then
      if AtLineStart(c.prevToken) then
        var (literal, end) := ListItemScan(s, p);
        (NewTokenStringLiteral(UnorderedList, literal), Cursor(end, c.prevToken))
      else
        (NewToken(Illegal, ch), c)
    else if ch == '*' then
      var (tok, end) := ModifierScan(s, p);
      (tok, Cursor(end, c.prevToken))
    else
      var (tok, end) := TextScan(s, p);
      (tok, Cursor(end, c.prevToken))
  }

  /**
   * `n` further calls of `NextToken` from `c`: the tokens and the final cursor, or None when one
   * of the calls starts past the end of the input, where the slice in `readText` is out of range.
   */
  function Run(s: ByteString, c: Cursor, n: nat): (r: Option<(seq<Token>, Cursor)>)
    ensures r.Some? ==> |r.value.0| == n && c.position <= r.value.1.position
    decreases n
  {
    if n == 0 then Some(([], c))
    else if c.position > |s| then None
    else
      var (tok, next) := Step(s, c);
      match Run(s, next, n - 1)
      case None => None
      case Some((toks, last)) => Some(([tok] + toks, last))
  }

  /** The first `n` tokens a lexer made by `New(s)` returns, or None if one of those calls panics. */
  function Lex(s: ByteString, n: nat): (r: Option<seq<Token>>)
    ensures r.Some? <==> Run(s, Start, n).Some?
    ensures r.Some? ==> |r.value| == n
  {
    match Run(s, Start, n)
    case None => None
    case Some((toks, _)) => Some(toks)
  }
}
