/** The two sides of a chess game (chess/color.py). */
module Colors {

  /** One of the two colors. The source stores White as 1 and Black as 8,
      which is also the row each side's back rank stands on. */
  datatype Color = White | Black {

    /** The opponent's color. */
    function Other(): (c: Color)
      ensures c != this
    {
      if this == White then Black else White
    }

    /** The first row from the point of view of the player of this color. */
    function FirstRow(): (r: int)
      ensures 1 <= r <= 8
      ensures r == 1 <==> this == White
      ensures r == 8 <==> this == Black
    {
      match this
      case White => 1
      case Black => 8
    }
  }

  /** Taking the opponent twice gives back the original color. */
  lemma OtherIsInvolution(c: Color)
    ensures c.Other().Other() == c
    ensures c.Other() != c
  {
  }

  /** The two sides start on different rows, both on the board. */
  lemma FirstRowsDiffer(c: Color)
    ensures c.FirstRow() != c.Other().FirstRow()
    ensures 1 <= c.Other().FirstRow() <= 8
  {
  }
}
