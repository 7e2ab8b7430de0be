/**
 * Runs of the lexer on the input shapes of the Go tests, for any pieces of text of the right kind,
 * each instantiated with the test's own strings; then corner cases of the code as written.
 *
 * Each shape is proved in three layers: one lemma per call that gives that call's result from a
 * general fact about one scanner (`HeaderOver`, `ListItemOver`, ...), a lemma that chains the
 * calls into a run, and a lemma that checks the test's strings are pieces of the right kind.
 */
module Examples {
  import opened Wrappers
  import opened Token
  import opened Scan
  import opened ScanProperties

  const NL: Token := NewLineToken

  /* Pieces of input */

  /** Every byte of `x` is one the scan of kind `k` continues over. */
  predicate AllIn(k: RunKind, x: ByteString) {
    x == [] || (InRun(k, x[0]) && AllIn(k, x[1..]))
  }

  lemma {:induction false} AllInMembers(k: RunKind, x: ByteString)
    requires AllIn(k, x)
    ensures forall c | c in x :: InRun(k, c)
  {
    if x != [] {
      AllInMembers(k, x[1..]);
      assert forall c | c in x :: c == x[0] || c in x[1..];
    }
  }

  lemma {:induction false} MembersAllIn(k: RunKind, x: ByteString)
    requires forall c | c in x :: InRun(k, c)
    ensures AllIn(k, x)
  {
    if x != [] {
      assert x[0] in x;
      assert forall c | c in x[1..] :: c in x;
      MembersAllIn(k, x[1..]);
    }
  }

  /** `x` does not begin with `c`. */
  predicate StartsOff(x: ByteString, c: Byte) {
    x != [] ==> x[0] != c
  }

  /** The rest of a heading line: no newline or NUL, and not a further `#`. */
  predicate LinePiece(h: ByteString) {
    AllIn(LineBody, h) && StartsOff(h, '#')
  }

  /** A stretch of text: no `*`, newline or NUL. */
  predicate TextPiece(x: ByteString) {
    AllIn(TextBody, x)
  }

  /** A list item's text: a text piece that does not begin with a further `-` or space. */
  predicate ItemPiece(x: ByteString) {
    TextPiece(x) && StartsOff(x, '-') && StartsOff(x, ' ')
  }

  /** A line of plain text: a non-empty text piece that does not begin with a `#` or `-`. */
  predicate PlainPiece(x: ByteString) {
    TextPiece(x) && x != [] && x[0] != '#' && x[0] != '-'
  }

  /* One call, in the middle of any input */

  /** A run of kind `k` over `x` stops on the first byte of what follows when that byte stops it. */
  lemma ScanOver(a: ByteString, x: ByteString, b: ByteString, k: RunKind)
    requires (forall c | c in x :: InRun(k, c)) && !InRun(k, CharAt(b, 0))
    ensures RunEnd(a + x + b, |a|, k) == |a| + |x|
  {
    var s := a + x + b;
    assert s[|a|..|a| + |x|] == x;
    assert CharAt(s, |a| + |x|) == CharAt(b, 0);
    RunEndOver(s, |a|, x, k);
  }

  /** A newline: NEW_LINE, recorded as the previous token. */
  lemma NewLineAt(a: ByteString, b: ByteString, prev: Option<Token>)
    ensures Step(a + "\n" + b, Cursor(|a|, prev)) == (NL, Cursor(|a| + 1, Some(NL)))
  {
    assert (a + "\n" + b)[|a|] == '\n';
  }

  /** `#` and the rest of a line at the start of a line: H1 over the rest of the line. */
  lemma HeaderOver(a: ByteString, h: ByteString, b: ByteString, prev: Option<Token>)
    requires AtLineStart(prev) && LinePiece(h) && !InRun(LineBody, CharAt(b, 0))
    ensures Step(a + "#" + h + b, Cursor(|a|, prev)) == (Token(H1, h), Cursor(|a| + 1 + |h|, prev))
  {
    var s := a + "#" + h + b;
    var p := |a|;
    assert s[p] == '#';
    assert CharAt(s, p + 1) == if h == [] then CharAt(b, 0) else h[0];
    assert RunEnd(s, p + 1, Hashes) == p + 1;
    assert RunEnd(s, p, Hashes) == p + 1;
    AllInMembers(LineBody, h);
    ScanOver(a + "#", h, b, LineBody);
    assert s[p + 1..p + 1 + |h|] == h;
  }

  /** `- ` and an item at the start of a line: UL over the item, up to a `*`, newline or NUL. */
  lemma ListItemOver(a: ByteString, x: ByteString, b: ByteString, prev: Option<Token>)
    requires AtLineStart(prev) && ItemPiece(x)
    requires !InRun(TextBody, CharAt(b, 0))
    ensures Step(a + "- " + x + b, Cursor(|a|, prev)) == (Token(UnorderedList, x), Cursor(|a| + 2 + |x|, prev))
  {
    var s := a + "- " + x + b;
    var p := |a|;
    assert s[p] == '-' && s[p + 1] == ' ';
    assert CharAt(s, p + 2) == if x == [] then CharAt(b, 0) else x[0];
    assert RunEnd(s, p + 2, Delimiters) == p + 2;
    assert RunEnd(s, p + 1, Delimiters) == p + 2;
    assert RunEnd(s, p, Delimiters) == p + 2;
    AllInMembers(TextBody, x);
    ScanOver(a + "- ", x, b, TextBody);
    assert s[p + 2..p + 2 + |x|] == x;
  }

  /** A line of plain text: TEXT over it. */
  lemma TextOver(a: ByteString, x: ByteString, b: ByteString, prev: Option<Token>)
    requires PlainPiece(x) && !InRun(TextBody, CharAt(b, 0))
    ensures Step(a + x + b, Cursor(|a|, prev)) == (Token(Text, x), Cursor(|a| + |x|, prev))
  {
    var s := a + x + b;
    assert s[|a|] == x[0];
    AllInMembers(TextBody, x);
    ScanOver(a, x, b, TextBody);
    assert s[|a|..|a| + |x|] == x;
  }

  /** `**`, a text piece and `**`: BOLD over the piece, the cursor past the closing pair. */
  lemma BoldOver(a: ByteString, x: ByteString, b: ByteString, prev: Option<Token>)
    requires TextPiece(x)
    ensures Step(a + "**" + x + "**" + b, Cursor(|a|, prev)) == (Token(Bold, x), Cursor(|a| + |x| + 4, prev))
  {
    var s := a + "**" + x + "**" + b;
    AllInMembers(TextBody, x);
    assert s[|a|..|a| + |x| + 4] == "**" + x + "**";
    StepBold(s, Cursor(|a|, prev), x);
  }

  /** `*` and a text piece not starting with a space or `*`: ITALIC over the piece. */
  lemma ItalicOver(a: ByteString, x: ByteString, b: ByteString, prev: Option<Token>)
    requires TextPiece(x) && !InRun(TextBody, CharAt(b, 0))
    requires CharAt(x + b, 0) != ' ' && CharAt(x + b, 0) != '*'
    ensures Step(a + "*" + x + b, Cursor(|a|, prev)) == (Token(Italic, x), Cursor(|a| + 1 + |x|, prev))
  {
    var s := a + "*" + x + b;
    var p := |a|;
    assert s[p] == '*';
    assert CharAt(s, p + 1) == CharAt(x + b, 0);
    AllInMembers(TextBody, x);
    ScanOver(a + "*", x, b, TextBody);
    assert s[p + 1..p + 1 + |x|] == x;
  }

  /** `*` and a text piece starting with a space: the `*` is dropped and TEXT runs over the piece. */
  lemma StarSpaceOver(a: ByteString, x: ByteString, b: ByteString, prev: Option<Token>)
    requires TextPiece(x) && x != [] && x[0] == ' ' && !InRun(TextBody, CharAt(b, 0))
    ensures Step(a + "*" + x + b, Cursor(|a|, prev)) == (Token(Text, x), Cursor(|a| + 1 + |x|, prev))
  {
    var s := a + "*" + x + b;
    var p := |a|;
    assert s[p] == '*' && s[p + 1] == ' ';
    AllInMembers(TextBody, x);
    ScanOver(a + "*", x, b, TextBody);
    assert s[p + 1..p + 1 + |x|] == x;
  }

  /*
   * Traces of calls as runs, for any input. `RunTrace` takes the trace as sequences; these fixed-length
   * forms let each shape lemma pass its calls as separate facts about an abstract input, which keeps
   * the prover from unfolding `Step` over the concrete input inside the quantifier of `RunTrace`.
   */

  lemma Trace2(s: ByteString, c0: Cursor, c1: Cursor, c2: Cursor, t1: Token, t2: Token)
    requires c0.position <= |s| && Step(s, c0) == (t1, c1)
    requires c1.position <= |s| && Step(s, c1) == (t2, c2)
    ensures Run(s, c0, 2) == Some(([t1, t2], c2))
  {
    var cs, toks := [c0, c1, c2], [t1, t2];
    forall i | 0 <= i < 2 ensures cs[i].position <= |s| && Step(s, cs[i]) == (toks[i], cs[i + 1]) {
      if i == 0 {} else {}
    }
    RunTrace(s, cs, toks);
  }

  lemma Trace3(s: ByteString, c0: Cursor, c1: Cursor, c2: Cursor, c3: Cursor, t1: Token, t2: Token, t3: Token)
    requires c0.position <= |s| && Step(s, c0) == (t1, c1)
    requires c1.position <= |s| && Step(s, c1) == (t2, c2)
    requires c2.position <= |s| && Step(s, c2) == (t3, c3)
    ensures Run(s, c0, 3) == Some(([t1, t2, t3], c3))
  {
    var cs, toks := [c0, c1, c2, c3], [t1, t2, t3];
    forall i | 0 <= i < 3 ensures cs[i].position <= |s| && Step(s, cs[i]) == (toks[i], cs[i + 1]) {
      if i == 0 {} else if i == 1 {} else {}
    }
    RunTrace(s, cs, toks);
  }

  lemma Trace4(s: ByteString, c0: Cursor, c1: Cursor, c2: Cursor, c3: Cursor, c4: Cursor,
               t1: Token, t2: Token, t3: Token, t4: Token)
    requires c0.position <= |s| && Step(s, c0) == (t1, c1)
    requires c1.position <= |s| && Step(s, c1) == (t2, c2)
    requires c2.position <= |s| && Step(s, c2) == (t3, c3)
    requires c3.position <= |s| && Step(s, c3) == (t4, c4)
    ensures Run(s, c0, 4) == Some(([t1, t2, t3, t4], c4))
  {
    var cs, toks := [c0, c1, c2, c3, c4], [t1, t2, t3, t4];
    forall i | 0 <= i < 4 ensures cs[i].position <= |s| && Step(s, cs[i]) == (toks[i], cs[i + 1]) {
      if i == 0 {} else if i == 1 {} else if i == 2 {} else {}
    }
    RunTrace(s, cs, toks);
  }

  lemma Trace5(s: ByteString, c0: Cursor, c1: Cursor, c2: Cursor, c3: Cursor, c4: Cursor, c5: Cursor,
               t1: Token, t2: Token, t3: Token, t4: Token, t5: Token)
    requires c0.position <= |s| && Step(s, c0) == (t1, c1)
    requires c1.position <= |s| && Step(s, c1) == (t2, c2)
    requires c2.position <= |s| && Step(s, c2) == (t3, c3)
    requires c3.position <= |s| && Step(s, c3) == (t4, c4)
    requires c4.position <= |s| && Step(s, c4) == (t5, c5)
    ensures Run(s, c0, 5) == Some(([t1, t2, t3, t4, t5], c5))
  {
    var cs, toks := [c0, c1, c2, c3, c4, c5], [t1, t2, t3, t4, t5];
    forall i | 0 <= i < 5 ensures cs[i].position <= |s| && Step(s, cs[i]) == (toks[i], cs[i + 1]) {
      if i == 0 {} else if i == 1 {} else if i == 2 {} else if i == 3 {} else {}
    }
    RunTrace(s, cs, toks);
  }

  /* TestNextToken (lexer/lexer_test.go:29-39): "#hello this is a test\n##" */

  function HeadingsInput(h: ByteString): ByteString {
    "#" + h + "\n" + "##"
  }

  lemma HeadingsCall3(h: ByteString)
    ensures Step(HeadingsInput(h), Cursor(2 + |h|, Some(NL))) == (Token(H2, []), Cursor(4 + |h|, Some(NL)))
  {
    var s := HeadingsInput(h);
    var p := 2 + |h|;
    assert s[p] == '#' && s[p + 1] == '#' && |s| == p + 2;
    assert RunEnd(s, p + 2, Hashes) == p + 2;
    assert RunEnd(s, p + 1, Hashes) == p + 2;
    assert RunEnd(s, p, Hashes) == p + 2;
    assert RunEnd(s, p + 2, LineBody) == p + 2;
    var (level, literal, end) := HeaderScan(s, p);
    assert level == 2;
    assert end == p + 2;
    assert literal == [];
    assert CreateHeaderToken(2, []) == Token(H2, []) by {
      assert HeadingKind(2) == Some(H2);
    }
  }

  /** A heading, a newline, and a level-2 heading with an empty literal. */
  lemma HeadingsShape(h: ByteString)
    requires LinePiece(h)
    ensures Lex(HeadingsInput(h), 3) == Some([Token(H1, h), NL, Token(H2, [])])
  {
    var s, n := HeadingsInput(h), |h|;
    assert s == [] + "#" + h + ("\n" + "##");
    HeaderOver([], h, "\n" + "##", None);
    assert s == "#" + h + "\n" + "##";
    NewLineAt("#" + h, "##", None);
    HeadingsCall3(h);
    Trace3(s, Start, Cursor(1 + n, None), Cursor(2 + n, Some(NL)), Cursor(4 + n, Some(NL)),
           Token(H1, h), NL, Token(H2, []));
  }

  const HeadingText: ByteString := "hello this is a test"

  lemma HeadingTextIsLine() ensures LinePiece(HeadingText) {
    MembersAllIn(LineBody, HeadingText);
  }

  lemma HeadingsExample()
    ensures Lex(HeadingsInput(HeadingText), 3) == Some([Token(H1, HeadingText), NL, Token(H2, [])])
  {
    HeadingTextIsLine();
    HeadingsShape(HeadingText);
  }

  /* TestUnorderedList (lexer/lexer_test.go:42-53): "#<h>\n- <x>\n- <y>" */

  function UnorderedListInput(h: ByteString, x: ByteString, y: ByteString): ByteString {
    "#" + h + "\n" + "- " + x + "\n" + "- " + y
  }

  lemma UnorderedListCall1(h: ByteString, x: ByteString, y: ByteString)
    requires LinePiece(h)
    ensures Step(UnorderedListInput(h, x, y), Start) == (Token(H1, h), Cursor(1 + |h|, None))
  {
    assert UnorderedListInput(h, x, y) == [] + "#" + h + ("\n" + "- " + x + "\n" + "- " + y);
    HeaderOver([], h, "\n" + "- " + x + "\n" + "- " + y, None);
  }

  lemma UnorderedListCall2(h: ByteString, x: ByteString, y: ByteString)
    ensures Step(UnorderedListInput(h, x, y), Cursor(1 + |h|, None)) == (NL, Cursor(2 + |h|, Some(NL)))
  {
    assert UnorderedListInput(h, x, y) == "#" + h + "\n" + ("- " + x + "\n" + "- " + y);
    NewLineAt("#" + h, "- " + x + "\n" + "- " + y, None);
  }

  lemma UnorderedListCall3(h: ByteString, x: ByteString, y: ByteString)
    requires ItemPiece(x)
    ensures Step(UnorderedListInput(h, x, y), Cursor(2 + |h|, Some(NL))) ==
            (Token(UnorderedList, x), Cursor(4 + |h| + |x|, Some(NL)))
  {
    assert UnorderedListInput(h, x, y) == ("#" + h + "\n") + "- " + x + ("\n" + "- " + y);
    ListItemOver("#" + h + "\n", x, "\n" + "- " + y, Some(NL));
  }

  lemma UnorderedListCall4(h: ByteString, x: ByteString, y: ByteString)
    ensures Step(UnorderedListInput(h, x, y), Cursor(4 + |h| + |x|, Some(NL))) ==
            (NL, Cursor(5 + |h| + |x|, Some(NL)))
  {
    assert UnorderedListInput(h, x, y) == ("#" + h + "\n" + "- " + x) + "\n" + ("- " + y);
    NewLineAt("#" + h + "\n" + "- " + x, "- " + y, Some(NL));
  }

  lemma UnorderedListCall5(h: ByteString, x: ByteString, y: ByteString)
    requires ItemPiece(y)
    ensures Step(UnorderedListInput(h, x, y), Cursor(5 + |h| + |x|, Some(NL))) ==
            (Token(UnorderedList, y), Cursor(7 + |h| + |x| + |y|, Some(NL)))
  {
    var a := "#" + h + "\n" + "- " + x + "\n";
    ListItemOver(a, y, [], Some(NL));
    assert a + "- " + y + [] == UnorderedListInput(h, x, y);
    assert |a| == 5 + |h| + |x|;
  }

  /** A heading followed by two list items on their own lines. */
  lemma UnorderedListShape(h: ByteString, x: ByteString, y: ByteString)
    requires LinePiece(h) && ItemPiece(x) && ItemPiece(y)
    ensures Lex(UnorderedListInput(h, x, y), 5) ==
            Some([Token(H1, h), NL, Token(UnorderedList, x), NL, Token(UnorderedList, y)])
  {
    var s := UnorderedListInput(h, x, y);
    var n, m, k := |h|, |x|, |y|;
    UnorderedListCall1(h, x, y);
    UnorderedListCall2(h, x, y);
    UnorderedListCall3(h, x, y);
    UnorderedListCall4(h, x, y);
    UnorderedListCall5(h, x, y);
    Trace5(s, Start, Cursor(1 + n, None), Cursor(2 + n, Some(NL)), Cursor(4 + n + m, Some(NL)),
           Cursor(5 + n + m, Some(NL)), Cursor(7 + n + m + k, Some(NL)),
           Token(H1, h), NL, Token(UnorderedList, x), NL, Token(UnorderedList, y));
  }

  const ListHeading: ByteString := "This is a heading 1"
  const FirstItem: ByteString := "this is an unordered list"
  const SecondItem: ByteString := "this is another UL"

  lemma ListHeadingIsLine() ensures LinePiece(ListHeading) {
    MembersAllIn(LineBody, ListHeading);
  }

  lemma FirstItemIsItem() ensures ItemPiece(FirstItem) {
    MembersAllIn(TextBody, FirstItem);
  }

  lemma SecondItemIsItem() ensures ItemPiece(SecondItem) {
    MembersAllIn(TextBody, SecondItem);
  }

  lemma UnorderedListExample()
    ensures Lex(UnorderedListInput(ListHeading, FirstItem, SecondItem), 5) ==
            Some([Token(H1, ListHeading), NL, Token(UnorderedList, FirstItem), NL, Token(UnorderedList, SecondItem)])
  {
    ListHeadingIsLine();
    FirstItemIsItem();
    SecondItemIsItem();
    UnorderedListShape(ListHeading, FirstItem, SecondItem);
  }

  /* TestListWithModifier (lexer/lexer_test.go:55-65): "- <x>**<y>**\n" */

  function ListWithBoldInput(x: ByteString, y: ByteString): ByteString {
    "- " + x + "**" + y + "**" + "\n"
  }

  lemma ListWithBoldCall1(x: ByteString, y: ByteString)
    requires ItemPiece(x)
    ensures Step(ListWithBoldInput(x, y), Start) == (Token(UnorderedList, x), Cursor(2 + |x|, None))
  {
    assert ListWithBoldInput(x, y) == [] + "- " + x + ("**" + y + "**" + "\n");
    ListItemOver([], x, "**" + y + "**" + "\n", None);
  }

  lemma ListWithBoldCall2(x: ByteString, y: ByteString)
    requires TextPiece(y)
    ensures Step(ListWithBoldInput(x, y), Cursor(2 + |x|, None)) == (Token(Bold, y), Cursor(6 + |x| + |y|, None))
  {
    assert ListWithBoldInput(x, y) == ("- " + x) + "**" + y + "**" + "\n";
    BoldOver("- " + x, y, "\n", None);
  }

  lemma ListWithBoldCall3(x: ByteString, y: ByteString)
    ensures Step(ListWithBoldInput(x, y), Cursor(6 + |x| + |y|, None)) == (NL, Cursor(7 + |x| + |y|, Some(NL)))
  {
    var a := "- " + x + "**" + y + "**";
    NewLineAt(a, [], None);
    assert a + "\n" + [] == ListWithBoldInput(x, y);
  }

  /** The list-item literal stops at the `**`, which opens a BOLD token. */
  lemma ListWithBoldShape(x: ByteString, y: ByteString)
    requires ItemPiece(x) && TextPiece(y)
    ensures Lex(ListWithBoldInput(x, y), 3) == Some([Token(UnorderedList, x), Token(Bold, y), NL])
  {
    var s, m, k := ListWithBoldInput(x, y), |x|, |y|;
    ListWithBoldCall1(x, y);
    ListWithBoldCall2(x, y);
    ListWithBoldCall3(x, y);
    Trace3(s, Start, Cursor(2 + m, None), Cursor(6 + m + k, None), Cursor(7 + m + k, Some(NL)),
           Token(UnorderedList, x), Token(Bold, y), NL);
  }

  const ItemBeforeBold: ByteString := "this is a list "
  const BoldText: ByteString := "with bold"

  lemma ItemBeforeBoldIsItem() ensures ItemPiece(ItemBeforeBold) {
    MembersAllIn(TextBody, ItemBeforeBold);
  }

  lemma BoldTextIsText() ensures TextPiece(BoldText) {
    MembersAllIn(TextBody, BoldText);
  }

  lemma ListWithBoldExample()
    ensures Lex(ListWithBoldInput(ItemBeforeBold, BoldText), 3) ==
            Some([Token(UnorderedList, ItemBeforeBold), Token(Bold, BoldText), NL])
  {
    ItemBeforeBoldIsItem();
    BoldTextIsText();
    ListWithBoldShape(ItemBeforeBold, BoldText);
  }

  /* TestListWithItalic (lexer/lexer_test.go:67-75): "- <x>*<y>*\n" */

  function ListWithItalicInput(x: ByteString, y: ByteString): ByteString {
    "- " + x + "*" + y + "*" + "\n"
  }

  lemma ListWithItalicCall1(x: ByteString, y: ByteString)
    requires ItemPiece(x)
    ensures Step(ListWithItalicInput(x, y), Start) == (Token(UnorderedList, x), Cursor(2 + |x|, None))
  {
    assert ListWithItalicInput(x, y) == [] + "- " + x + ("*" + y + "*" + "\n");
    ListItemOver([], x, "*" + y + "*" + "\n", None);
  }

  lemma ListWithItalicCall2(x: ByteString, y: ByteString)
    requires TextPiece(y) && y != [] && y[0] != ' '
    ensures Step(ListWithItalicInput(x, y), Cursor(2 + |x|, None)) == (Token(Italic, y), Cursor(3 + |x| + |y|, None))
  {
    assert ListWithItalicInput(x, y) == ("- " + x) + "*" + y + ("*" + "\n");
    ItalicOver("- " + x, y, "*" + "\n", None);
  }

  lemma ListWithItalicCall3(x: ByteString, y: ByteString)
    ensures Step(ListWithItalicInput(x, y), Cursor(3 + |x| + |y|, None)) == (Token(Italic, []), Cursor(4 + |x| + |y|, None))
  {
    var a := "- " + x + "*" + y;
    ItalicOver(a, [], "\n", None);
    assert a + "*" + [] + "\n" == ListWithItalicInput(x, y);
  }

  lemma ListWithItalicCall4(x: ByteString, y: ByteString)
    ensures Step(ListWithItalicInput(x, y), Cursor(4 + |x| + |y|, None)) == (NL, Cursor(5 + |x| + |y|, Some(NL)))
  {
    var a := "- " + x + "*" + y + "*";
    NewLineAt(a, [], None);
    assert a + "\n" + [] == ListWithItalicInput(x, y);
  }

  /**
   * The test's two tokens, and two more: the closing `*` is left unconsumed, so the next call sees
   * a `*` before a newline and returns ITALIC "".
   */
  lemma ListWithItalicShape(x: ByteString, y: ByteString)
    requires ItemPiece(x) && TextPiece(y) && y != [] && y[0] != ' '
    ensures Lex(ListWithItalicInput(x, y), 4) ==
            Some([Token(UnorderedList, x), Token(Italic, y), Token(Italic, []), NL])
  {
    var s, m, k := ListWithItalicInput(x, y), |x|, |y|;
    ListWithItalicCall1(x, y);
    ListWithItalicCall2(x, y);
    ListWithItalicCall3(x, y);
    ListWithItalicCall4(x, y);
    Trace4(s, Start, Cursor(2 + m, None), Cursor(3 + m + k, None), Cursor(4 + m + k, None),
           Cursor(5 + m + k, Some(NL)), Token(UnorderedList, x), Token(Italic, y), Token(Italic, []), NL);
  }

  const ItemBeforeItalic: ByteString := "This is a list "
  const ItalicText: ByteString := "with italic"

  lemma ItemBeforeItalicIsItem() ensures ItemPiece(ItemBeforeItalic) {
    MembersAllIn(TextBody, ItemBeforeItalic);
  }

  lemma ItalicTextIsText() ensures TextPiece(ItalicText) {
    MembersAllIn(TextBody, ItalicText);
  }

  lemma ListWithItalicExample()
    ensures Lex(ListWithItalicInput(ItemBeforeItalic, ItalicText), 4) ==
            Some([Token(UnorderedList, ItemBeforeItalic), Token(Italic, ItalicText), Token(Italic, []), NL])
  {
    ItemBeforeItalicIsItem();
    ItalicTextIsText();
    ListWithItalicShape(ItemBeforeItalic, ItalicText);
  }

  /* TestPlainText (lexer/lexer_test.go:77-85): "<x>\n" */

  /** A line of text and its newline. */
  lemma PlainTextShape(x: ByteString)
    requires PlainPiece(x)
    ensures Lex(x + "\n", 2) == Some([Token(Text, x), NL])
  {
    var s := x + "\n";
    assert s == [] + x + "\n";
    TextOver([], x, "\n", None);
    assert s == x + "\n" + [];
    NewLineAt(x, [], None);
    Trace2(s, Start, Cursor(|x|, None), Cursor(|x| + 1, Some(NL)), Token(Text, x), NL);
  }

  const PlainText: ByteString := "This should just be a plain text block"

  lemma PlainTextIsPlain() ensures PlainPiece(PlainText) {
    MembersAllIn(TextBody, PlainText);
  }

  lemma PlainTextExample()
    ensures Lex(PlainText + "\n", 2) == Some([Token(Text, PlainText), NL])
  {
    PlainTextIsPlain();
    PlainTextShape(PlainText);
  }

  /* TestPlainTextWithModifiers (lexer/lexer_test.go:87-95): "<x>*<y>\n" with `y` starting with a space */

  /**
   * The test expects one TEXT token that keeps the `*`. The code stops the text at the `*`, drops
   * it, and starts a second TEXT token at the space after it.
   */
  lemma StarInTextCall1(x: ByteString, y: ByteString)
    requires PlainPiece(x)
    ensures Step(x + "*" + y + "\n", Start) == (Token(Text, x), Cursor(|x|, None))
  {
    assert x + "*" + y + "\n" == [] + x + ("*" + y + "\n");
    TextOver([], x, "*" + y + "\n", None);
  }

  lemma StarInTextCall3(x: ByteString, y: ByteString)
    ensures Step(x + "*" + y + "\n", Cursor(|x| + 1 + |y|, None)) == (NL, Cursor(|x| + 2 + |y|, Some(NL)))
  {
    var a := x + "*" + y;
    NewLineAt(a, [], None);
    assert a + "\n" + [] == x + "*" + y + "\n";
  }

  lemma StarInTextShape(x: ByteString, y: ByteString)
    requires PlainPiece(x) && TextPiece(y) && y != [] && y[0] == ' '
    ensures Lex(x + "*" + y + "\n", 3) == Some([Token(Text, x), Token(Text, y), NL])
    ensures Lex(x + "*" + y + "\n", 2) != Some([Token(Text, x + "*" + y), NL])
  {
    var s := x + "*" + y + "\n";
    var c1, c2, c3 := Cursor(|x|, None), Cursor(|x| + 1 + |y|, None), Cursor(|x| + 2 + |y|, Some(NL));
    StarInTextCall1(x, y);
    StarSpaceOver(x, y, "\n", None);
    StarInTextCall3(x, y);
    Trace3(s, Start, c1, c2, c3, Token(Text, x), Token(Text, y), NL);
    Trace2(s, Start, c1, c2, Token(Text, x), Token(Text, y));
    assert |x + "*" + y| != |x|;
  }

  const TextBeforeStar: ByteString := "This should be a plain "
  const TextAfterStar: ByteString := " text block"

  lemma TextBeforeStarIsPlain() ensures PlainPiece(TextBeforeStar) {
    MembersAllIn(TextBody, TextBeforeStar);
  }

  lemma TextAfterStarIsText() ensures TextPiece(TextAfterStar) {
    MembersAllIn(TextBody, TextAfterStar);
  }

  lemma StarInTextExample()
    ensures Lex(TextBeforeStar + "*" + TextAfterStar + "\n", 3) ==
            Some([Token(Text, TextBeforeStar), Token(Text, TextAfterStar), NL])
    ensures Lex(TextBeforeStar + "*" + TextAfterStar + "\n", 2) !=
            Some([Token(Text, TextBeforeStar + "*" + TextAfterStar), NL])
  {
    TextBeforeStarIsPlain();
    TextAfterStarIsText();
    StarInTextShape(TextBeforeStar, TextAfterStar);
  }

  /* TestBoldList (lexer/lexer_test.go:97-105): "- **<x>**" */

  /** An empty list-item literal before the bold span. */
  lemma BoldListShape(x: ByteString)
    requires TextPiece(x)
    ensures Lex("- " + "**" + x + "**", 2) == Some([Token(UnorderedList, []), Token(Bold, x)])
  {
    var s := "- " + "**" + x + "**";
    assert s == [] + "- " + [] + ("**" + x + "**");
    ListItemOver([], [], "**" + x + "**", None);
    assert s == "- " + "**" + x + "**" + [];
    BoldOver("- ", x, [], None);
    Trace2(s, Start, Cursor(2, None), Cursor(6 + |x|, None), Token(UnorderedList, []), Token(Bold, x));
  }

  const BoldItem: ByteString := "Bold List"

  lemma BoldListExample()
    ensures Lex("- " + "**" + BoldItem + "**", 2) == Some([Token(UnorderedList, []), Token(Bold, BoldItem)])
  {
    MembersAllIn(TextBody, BoldItem);
    BoldListShape(BoldItem);
  }

  /* Corner cases of the code as written */

  /** An unclosed bold span: ILLEGAL, with the cursor on the end of the input. */
  lemma UnclosedBoldExample()
    ensures Run("**abc", Start, 1) == Some(([Token(Illegal, UnmatchedModifier)], Cursor(5, None)))
  {
    assert Step("**abc", Start) == (Token(Illegal, UnmatchedModifier), Cursor(5, None)) by {
      assert BoldEnd("**abc", 2) == Unclosed(5);
    }
    RunOne("**abc", Start, Token(Illegal, UnmatchedModifier), Cursor(5, None));
  }

  /**
   * A lone `*` as the last byte inside an open bold: the scan steps over it and past the end, the
   * first call returns ILLEGAL with the cursor at `|input| + 1`, and the second call panics.
   */
  lemma BoldOverrunExample()
    ensures Run("**a*", Start, 1) == Some(([Token(Illegal, UnmatchedModifier)], Cursor(5, None)))
    ensures Lex("**a*", 2) == None
  {
    assert Step("**a*", Start) == (Token(Illegal, UnmatchedModifier), Cursor(5, None)) by {
      assert BoldEnd("**a*", 2) == Unclosed(5);
    }
    RunOne("**a*", Start, Token(Illegal, UnmatchedModifier), Cursor(5, None));
    RunPastEnd("**a*", Cursor(5, None), 1);
  }

  /** Three `*` bytes: the same overrun, one past the end after the first call. */
  lemma TripleStarOverrunExample()
    ensures Run("***", Start, 1) == Some(([Token(Illegal, UnmatchedModifier)], Cursor(4, None)))
    ensures Lex("***", 2) == None
  {
    assert Step("***", Start) == (Token(Illegal, UnmatchedModifier), Cursor(4, None)) by {
      assert BoldEnd("***", 2) == Unclosed(4);
    }
    RunOne("***", Start, Token(Illegal, UnmatchedModifier), Cursor(4, None));
    RunPastEnd("***", Cursor(4, None), 1);
  }

  /** A lone `*` just before a newline makes the bold scan step over the newline. */
  lemma BoldCrossesNewLineExample()
    ensures Run("**" + "a*\nb" + "**", Start, 1) == Some(([Token(Bold, "a*\nb")], Cursor(8, None)))
  {
    var s := "**" + "a*\nb" + "**";
    assert Step(s, Start) == (Token(Bold, "a*\nb"), Cursor(8, None)) by {
      assert s[2] == 'a' && s[3] == '*' && s[4] == '\n' && s[5] == 'b' && s[6] == '*' && s[7] == '*';
      assert BoldEnd(s, 6) == Closed(6);
      assert BoldEnd(s, 5) == Closed(6);
      assert BoldEnd(s, 3) == Closed(6);
      assert BoldEnd(s, 2) == Closed(6);
      assert s[2..6] == "a*\nb";
    }
    RunOne(s, Start, Token(Bold, "a*\nb"), Cursor(8, None));
  }

  /** `prevToken` is not set after a bold span, so a `#` right after one still starts a heading. */
  lemma HeaderAfterBoldExample()
    ensures Lex("**" + "b" + "**" + "#" + "x", 2) == Some([Token(Bold, "b"), Token(H1, "x")])
  {
    var s := "**" + "b" + "**" + "#" + "x";
    assert s == [] + "**" + "b" + "**" + ("#" + "x");
    BoldOver([], "b", "#" + "x", None);
    assert s == "**" + "b" + "**" + "#" + "x" + [];
    HeaderOver("**" + "b" + "**", "x", [], None);
    Trace2(s, Start, Cursor(5, None), Cursor(7, None), Token(Bold, "b"), Token(H1, "x"));
  }

  /** Four `#` bytes: ILLEGAL, with the cursor on the end of the line. */
  lemma TooManyLevelsExample()
    ensures Run("####" + "x", Start, 1) == Some(([Token(Illegal, TooManyHeaderLevels)], Cursor(5, None)))
  {
    var s := "####" + "x";
    assert Step(s, Start) == (Token(Illegal, TooManyHeaderLevels), Cursor(5, None)) by {
      assert s[0] == '#' && s[1] == '#' && s[2] == '#' && s[3] == '#' && s[4] == 'x';
      assert RunEnd(s, 4, Hashes) == 4;
      assert RunEnd(s, 3, Hashes) == 4;
      assert RunEnd(s, 2, Hashes) == 4;
      assert RunEnd(s, 1, Hashes) == 4;
      assert RunEnd(s, 0, Hashes) == 4;
      assert RunEnd(s, 5, LineBody) == 5;
      assert RunEnd(s, 4, LineBody) == 5;
    }
    RunOne(s, Start, Token(Illegal, TooManyHeaderLevels), Cursor(5, None));
  }

  /** On the empty input every call returns TEXT ""; no EOF token is ever produced. */
  lemma EmptyInputExample()
    ensures Lex([], 3) == Some([Token(Text, []), Token(Text, []), Token(Text, [])])
  {
    RunAtEnd([], Start, 3);
    assert Run([], Start, 3).value.0 == [Token(Text, []), Token(Text, []), Token(Text, [])];
  }

  /** A `#` inside a line is plain text: the text scan stops only on `*`, a newline or NUL. */
  lemma HashInTextExample()
    ensures Run("ab#c", Start, 1) == Some(([Token(Text, "ab#c")], Cursor(4, None)))
  {
    assert Step("ab#c", Start) == (Token(Text, "ab#c"), Cursor(4, None)) by {
      var s: ByteString := "ab#c";
      assert RunEnd(s, 4, TextBody) == 4;
      assert RunEnd(s, 3, TextBody) == 4;
      assert RunEnd(s, 2, TextBody) == 4;
      assert RunEnd(s, 1, TextBody) == 4;
      assert RunEnd(s, 0, TextBody) == 4;
      assert s[0..4] == s;
    }
    RunOne("ab#c", Start, Token(Text, "ab#c"), Cursor(4, None));
  }

  /** A `-` needs no space after it: the run of `-` and spaces is skipped in any order. */
  lemma DashItemExample()
    ensures Run("-x", Start, 1) == Some(([Token(UnorderedList, "x")], Cursor(2, None)))
  {
    assert Step("-x", Start) == (Token(UnorderedList, "x"), Cursor(2, None)) by {
      var s: ByteString := "-x";
      assert RunEnd(s, 1, Delimiters) == 1;
      assert RunEnd(s, 0, Delimiters) == 1;
      assert RunEnd(s, 2, TextBody) == 2;
      assert RunEnd(s, 1, TextBody) == 2;
      assert s[1..2] == "x";
    }
    RunOne("-x", Start, Token(UnorderedList, "x"), Cursor(2, None));
  }

  /** An embedded NUL byte acts as the end of input: the lexer stays on it for good. */
  lemma EmbeddedNulExample()
    ensures Run("a" + [Nul] + "b", Start, 3) ==
            Some(([Token(Text, "a"), Token(Text, []), Token(Text, [])], Cursor(1, None)))
  {
    var s := "a" + [Nul] + "b";
    var c1 := Cursor(1, None);
    assert s == [] + "a" + ([Nul] + "b");
    TextOver([], "a", [Nul] + "b", None);
    StepAtSentinel(s, c1);
    Trace3(s, Start, c1, c1, c1, Token(Text, "a"), Token(Text, []), Token(Text, []));
  }
}
