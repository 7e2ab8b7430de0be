/**
 * The `Lexer` object: a cursor over an immutable input. Each method does what the Go method of
 * the same name does, loop for loop, and is proved to end in the state and with the result that
 * the matching specification function of module Scan gives.
 */
module Lexer {
  import opened Wrappers
  import opened Token
  import opened Scan

  class Lexer {
    const input: ByteString
    var position: int
    var readPosition: int
    var ch: Byte
    var prevToken: Option<Token>

    /**
     * The cursor invariant: `readPosition` is one past `position`, `ch` is the byte at `position`
     * (0 past the end), and `position` is at most one past the end of the input.
     */
    ghost predicate Valid()
      reads this
    {
      0 <= position <= |input| + 1 &&
      readPosition == position + 1 &&
      ch == CharAt(input, position)
    }

    /** The state `NextToken` depends on. */
    ghost function Cursor(): Scan.Cursor
      reads this
      requires Valid()
    {
      Scan.Cursor(position, prevToken)
    }

    /** `New`: the zero-valued struct, then one `readChar`. */
    constructor New(s: ByteString)
      ensures Valid() && input == s
      ensures position == 0 && readPosition == 1 && prevToken == None
      ensures ch == (if |s| == 0 then Nul else s[0])
      ensures Cursor() == Start
    {
      input := s;
      position := 0;
      readPosition := 0;
      ch := Nul;
      prevToken := None;
      new;
      ReadChar();
    }

    /** Move the cursor one byte on, loading 0 once the end of the input is reached. */
    method ReadChar()
      requires 0 <= readPosition
      modifies this`position, this`readPosition, this`ch
      ensures position == old(readPosition) && readPosition == position + 1
      ensures ch == CharAt(input, position)
    {
      if readPosition >= |input| {
        ch := Nul;
      } else {
        ch := input[readPosition];
      }
      position := readPosition;
      readPosition := readPosition + 1;
    }

    /** True exactly when the cursor is on a `*` byte of the input. */
    predicate IsModifier()
      reads this
      requires Valid()
      ensures IsModifier() <==> position < |input| && input[position] == '*'
    {
      ch == '*'
    }

    /** True exactly when the cursor is on a newline byte of the input. */
    predicate IsNewline()
      reads this
      requires Valid()
      ensures IsNewline() <==> position < |input| && input[position] == '\n'
    {
      ch == '\n'
    }

    /** True exactly when the cursor is past the end of the input or on an embedded NUL byte. */
    predicate IsEof()
      reads this
      requires Valid()
      ensures IsEof() <==> |input| <= position || input[position] == Nul
    {
      ch == Nul
    }

    /** Return the next token and advance the cursor, as one `Step` of the specification. */
    method NextToken() returns (tok: Token)
      requires Valid() && position <= |input|
      modifies this`position, this`readPosition, this`ch, this`prevToken
      ensures Valid()
      ensures (tok, Cursor()) == Step(input, old(Cursor()))
    {
      match ch {
        case '\n' =>
          tok := NewTokenStringLiteral(NewLine, NewLineLiteral);
        case '#' =>
          if prevToken == None || prevToken.value.kind == NewLine {
            var headerLevel, literal := ReadHeader();
            tok := CreateHeaderToken(headerLevel, literal);
          } else {
            tok := NewToken(Illegal, ch);
          }
          return;
        case '-' =>
          if prevToken == None || prevToken.value.kind == NewLine {
            var literal := ReadListItem();
            tok := NewTokenStringLiteral(UnorderedList, literal);
          } else {
            tok := NewToken(Illegal, ch);
          }
          return;
        case '*' =>
          tok := ReadModifier();
          return;
        case _ =>
          tok := ReadText();
          return;
      }
      prevToken := Some(tok);
      ReadChar();
    }

    /** Count the `#` run, then take the rest of the line; the cursor is left on its end. */
    method ReadHeader() returns (headerLevel: int, literal: ByteString)
      requires Valid() && position <= |input|
      modifies this`position, this`readPosition, this`ch
      ensures Valid()
      ensures (headerLevel, literal, position) == HeaderScan(input, old(position))
    {
      ghost var start := position;
      headerLevel := 0;
      while ch == '#' && ch != Nul
        invariant Valid() && start <= position <= |input|
        invariant headerLevel == position - start
        invariant RunEnd(input, position, Hashes) == RunEnd(input, start, Hashes)
        decreases |input| - position
      {
        headerLevel := headerLevel + 1;
        ReadChar();
      }
      var begin := position;
      while !IsNewLine(ch) && ch != Nul
        invariant Valid() && begin <= position <= |input|
        invariant RunEnd(input, position, LineBody) == RunEnd(input, begin, LineBody)
        decreases |input| - position
      {
        ReadChar();
      }
      literal := input[begin..position];
    }

    /** Skip the `-` and space run, then take the list-item literal. */
    method ReadListItem() returns (literal: ByteString)
      requires Valid() && position <= |input|
      modifies this`position, this`readPosition, this`ch
      ensures Valid()
      ensures (literal, position) == ListItemScan(input, old(position))
    {
      ghost var start := position;
      while ch == '-' || ch == ' '
        invariant Valid() && start <= position <= |input|
        invariant RunEnd(input, position, Delimiters) == RunEnd(input, start, Delimiters)
        decreases |input| - position
      {
        ReadChar();
      }
      var begin := position;
      while !IsModifier() && ch != Nul && !IsNewLine(ch)
        invariant Valid() && begin <= position <= |input|
        invariant RunEnd(input, position, TextBody) == RunEnd(input, begin, TextBody)
        decreases |input| - position
      {
        ReadChar();
      }
      literal := input[begin..position];
    }

    /** Step past the `*` and choose text, bold or italic by the byte after it. */
    method ReadModifier() returns (tok: Token)
      requires Valid() && position < |input|
      modifies this`position, this`readPosition, this`ch
      ensures Valid()
      ensures (tok, position) == ModifierScan(input, old(position))
    {
      ReadChar();
      match ch
      case ' ' =>
        tok := ReadText();
      case '*' =>
        ReadChar();
        tok := ParseBoldText();
      case _ =>
        tok := ParseItalic();
    }

    /** Scan for the closing `**` pair; ILLEGAL when a newline or the sentinel comes first. */
    method ParseBoldText() returns (tok: Token)
      requires Valid() && position <= |input|
      modifies this`position, this`readPosition, this`ch
      ensures Valid()
      ensures (tok, position) == BoldScan(input, old(position))
    {
      var start := position;
      var endPosition := position;
      while !IsNewLine(ch) && ch != Nul
        invariant Valid() && start <= position
        invariant BoldEnd(input, position) == BoldEnd(input, start)
        decreases |input| + 1 - position
      {
        if ch == '*' {
          endPosition := position;
          ReadChar();
          if ch == '*' {
            break;
          }
        }
        ReadChar();
      }
      if ch != '*' {
        tok := NewTokenStringLiteral(Illegal, UnmatchedModifier);
        return;
      }
      ReadChar();
      tok := NewTokenStringLiteral(Bold, input[start..endPosition]);
    }

    /** Take the italic literal; a closing `*` is left for the next call. */
    method ParseItalic() returns (tok: Token)
      requires Valid() && position <= |input|
      modifies this`position, this`readPosition, this`ch
      ensures Valid()
      ensures (tok, position) == ItalicScan(input, old(position))
    {
      var start := position;
      while !IsModifier() && !IsEof() && !IsNewline()
        invariant Valid() && start <= position <= |input|
        invariant RunEnd(input, position, TextBody) == RunEnd(input, start, TextBody)
        decreases |input| - position
      {
        ReadChar();
      }
      tok := NewTokenStringLiteral(Italic, input[start..position]);
    }

    /** Take a plain text run up to `*`, a newline or the sentinel. */
    method ReadText() returns (tok: Token)
      requires Valid() && position <= |input|
      modifies this`position, this`readPosition, this`ch
      ensures Valid()
      ensures (tok, position) == TextScan(input, old(position))
    {
      var start := position;
      while !IsEof() && !IsNewline() && !IsModifier()
        invariant Valid() && start <= position <= |input|
        invariant RunEnd(input, position, TextBody) == RunEnd(input, start, TextBody)
        decreases |input| - position
      {
        ReadChar();
      }
      tok := NewTokenStringLiteral(Text, input[start..position]);
    }
  }
}
