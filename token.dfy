/** Tokens of the markdown lexer: a kind tag and the literal text it carries. */
module Token {
  import opened Wrappers

  /** One byte of a Go `string`; Go indexes and slices strings byte by byte. */
  type Byte = c: char | c as int < 256

  /** A Go `string`, seen as its bytes. */
  type ByteString = seq<Byte>

  /** The eleven token kinds. Go declares each as a string constant of type `TokenType`. */
  datatype TokenType =
    | UnorderedList
    | OrderedList
    | H1
    | H2
    | H3
    | NewLine
    | Text
    | Bold
    | Italic
    | Eof
    | Illegal
  {
    /** The string value of the kind's constant; reading it back gives the kind again, so no two kinds share a name. */
    function Name(): (n: string)
      ensures KindNamed(n) == Some(this)
    {
      match this
      case UnorderedList => "UL"
      case OrderedList => "OL"
      case H1 => "HEADER 1"
      case H2 => "HEADER 2"
      case H3 => "HEADER 3"
      case NewLine => "NEW LINE"
      case Text => "TEXT"
      case Bold => "BOLD"
      case Italic => "ITALIC"
      case Eof => "EOF"
      case Illegal => "ILLEGAL"
    }

    /** The three heading kinds. */
    predicate IsHeading() {
      H1? || H2? || H3?
    }
  }

  /** The kind whose constant has the string value `n`, if any: what a `Type == <constant>` test selects. */
  function KindNamed(n: string): Option<TokenType> {
    if n == "UL" then Some(UnorderedList)
    else if n == "OL" then Some(OrderedList)
    else if n == "HEADER 1" then Some(H1)
    else if n == "HEADER 2" then Some(H2)
    else if n == "HEADER 3" then Some(H3)
    else if n == "NEW LINE" then Some(NewLine)
    else if n == "TEXT" then Some(Text)
    else if n == "BOLD" then Some(Bold)
    else if n == "ITALIC" then Some(Italic)
    else if n == "EOF" then Some(Eof)
    else if n == "ILLEGAL" then Some(Illegal)
    else None
  }

  /** Two kinds are equal exactly when their constants are equal strings. */
  lemma NamesDistinct(a: TokenType, b: TokenType)
    ensures a.Name() == b.Name() <==> a == b
  {
    if a.Name() == b.Name() {
      assert KindNamed(a.Name()) == KindNamed(b.Name());
    }
  }

  /** The heading level a heading kind stands for. */
  function HeadingLevel(k: TokenType): (level: nat)
    requires k.IsHeading()
    ensures 1 <= level <= 3
  {
    match k
    case H1 => 1
    case H2 => 2
    case H3 => 3
  }

  /** The level-to-kind map: exactly the levels 1, 2 and 3 have a heading kind. */
  function HeadingKind(level: int): (k: Option<TokenType>)
    ensures k.Some? <==> 1 <= level <= 3
    ensures k.Some? ==> k.value.IsHeading() && HeadingLevel(k.value) == level
  {
    if level == 1 then Some(H1)
    else if level == 2 then Some(H2)
    else if level == 3 then Some(H3)
    else None
  }

  /** Every heading kind is reached from its own level. */
  lemma HeadingKindsAreLevels(k: TokenType)
    requires k.IsHeading()
    ensures HeadingKind(HeadingLevel(k)) == Some(k)
  {
  }

  /** The Go `Token` struct: a `Type` and a `Literal`. */
  datatype Token = Token(kind: TokenType, literal: ByteString)
}
