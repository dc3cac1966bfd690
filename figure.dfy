/** Chess figures (chess/figure.py). */
module Figures {
  import opened Colors

  /** The six kinds of chess figure. */
  datatype FigureType = King | Queen | Rook | Bishop | Knight | Pawn

  /** Every figure kind, in the order the source declares them. */
  function AllFigureTypes(): (ks: seq<FigureType>)
    ensures |ks| == 6
    ensures forall i, j | 0 <= i < j < |ks| :: ks[i] != ks[j]
  {
    [King, Queen, Rook, Bishop, Knight, Pawn]
  }

  /** No kind is missing from the list. */
  lemma FigureTypeListed(k: FigureType)
    ensures k in AllFigureTypes()
  {
    match k
    case King => case Queen => case Rook => case Bishop => case Knight => case Pawn =>
  }

  /** A figure has a kind and a color. */
  datatype Figure = Figure(kind: FigureType, color: Color) {

    /** The one-letter code of the figure: lower case for White, upper case for Black. */
    function Letter(): (c: char)
      ensures ('a' <= c <= 'z') <==> color == White
      ensures ('A' <= c <= 'Z') <==> color == Black
    {
      match (kind, color)
      case (King,   White) => 'k'
      case (Queen,  White) => 'q'
      case (Rook,   White) => 'r'
      case (Bishop, White) => 'b'
      case (Knight, White) => 'n'
      case (Pawn,   White) => 'p'
      case (King,   Black) => 'K'
      case (Queen,  Black) => 'Q'
      case (Rook,   Black) => 'R'
      case (Bishop, Black) => 'B'
      case (Knight, Black) => 'N'
      case (Pawn,   Black) => 'P'
    }

    /** The Unicode chess symbol of the figure: U+2654 to U+2659 for White,
        U+265A to U+265F for Black, each block in the order king, queen,
        rook, bishop, knight, pawn. */
    function Symbol(): (c: char)
      ensures 0x2654 <= c as int <= 0x265F
      ensures c as int <= 0x2659 <==> color == White
    {
      match (kind, color)
      case (King,   White) => '\U{2654}'
      case (Queen,  White) => '\U{2655}'
      case (Rook,   White) => '\U{2656}'
      case (Bishop, White) => '\U{2657}'
      case (Knight, White) => '\U{2658}'
      case (Pawn,   White) => '\U{2659}'
      case (King,   Black) => '\U{265a}'
      case (Queen,  Black) => '\U{265b}'
      case (Rook,   Black) => '\U{265c}'
      case (Bishop, Black) => '\U{265d}'
      case (Knight, Black) => '\U{265e}'
      case (Pawn,   Black) => '\U{265f}'
    }

    /** The figure as a string, which is always a single character. */
    function Name(): (s: string)
      ensures |s| == 1 && s[0] == Letter()
    {
      [Letter()]
    }
  }

  /** The upper-case form of a lower-case ASCII letter. */
  function UpperCase(c: char): (u: char)
    requires 'a' <= c <= 'z'
    ensures 'A' <= u <= 'Z'
  {
    (c as int - 'a' as int + 'A' as int) as char
  }

  /** White figures are written k, q, r, b, n and p. */
  lemma WhiteLetters()
    ensures Figure(King, White).Letter() == 'k' && Figure(Queen, White).Letter() == 'q'
    ensures Figure(Rook, White).Letter() == 'r' && Figure(Bishop, White).Letter() == 'b'
    ensures Figure(Knight, White).Letter() == 'n' && Figure(Pawn, White).Letter() == 'p'
  {
  }

  /** A Black figure is written as the upper case of the White figure of the same kind. */
  lemma BlackLetterIsUpperCase(k: FigureType)
    ensures Figure(k, Black).Letter() == UpperCase(Figure(k, White).Letter())
  {
  }

  /** Each symbol sits at the position of its kind in AllFigureTypes, past
      U+2654 for White and six further on for Black. */
  lemma SymbolPosition(k: FigureType, i: int)
    requires 0 <= i < 6 && AllFigureTypes()[i] == k
    ensures Figure(k, White).Symbol() as int == 0x2654 + i
    ensures Figure(k, Black).Symbol() as int == 0x2654 + 6 + i
  {
  }

  /** The twelve figures have twelve different symbols. */
  lemma SymbolsDistinct(f: Figure, g: Figure)
    requires f.Symbol() == g.Symbol()
    ensures f == g
  {
  }

  /** The twelve figures have twelve different letters. */
  lemma LettersDistinct(f: Figure, g: Figure)
    requires f.Letter() == g.Letter()
    ensures f == g
  {
  }
}
