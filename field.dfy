/** Fields of the chess board (chess/field.py). */
module Fields {
  import opened Colors

  /** A field given by a column and a row. Nothing restricts the coordinates:
      fields off the board exist and are recognised by IsValid. */
  datatype Field = Field(col: int, row: int) {

    /** The field lies on the 8x8 board. */
    predicate IsValid() {
      col >= 1 && col <= 8 && row >= 1 && row <= 8
    }

    /** The field shifted by c columns and r rows; it is not checked to be on the board. */
    function Relative(c: int, r: int): Field {
      Field(col + c, row + r)
    }

    /** The field lies on the row where the player of this color promotes,
        which is the opponent's first row. */
    predicate IsLastRow(color: Color) {
      row == color.Other().FirstRow()
    }

    /** The column's letter can be formed: Python's chr accepts codes 0..0x10FFFF,
        and Dafny characters are those codes without the surrogates 0xD800..0xDFFF. */
    predicate HasName() {
      0 <= col + 96 < 0xD800 || 0xE000 <= col + 96 <= 0x10FFFF
    }

    /** The field's name: the letter with code col + ord('a') - 1, then the row in decimal. */
    function Name(): (s: string)
      requires HasName()
      ensures |s| >= 2
      ensures s[0] as int - 'a' as int + 1 == col
    {
      [(col + 96) as char] + IntToDecimal(row)
    }
  }

  /** The character for a decimal digit. */
  function Digit(d: int): (c: char)
    requires 0 <= d < 10
    ensures '0' <= c <= '9' && c as int - '0' as int == d
  {
    ('0' as int + d) as char
  }

  /** A natural number in decimal, most significant digit first, as Python's str. */
  function NatToDecimal(n: nat): (s: string)
    ensures |s| >= 1
    ensures forall i | 0 <= i < |s| :: '0' <= s[i] <= '9'
    ensures |s| == 1 <==> n < 10
    decreases n
  {
    if n < 10 then [Digit(n)] else NatToDecimal(n / 10) + [Digit(n % 10)]
  }

  /** An integer in decimal as Python's str renders it: a minus sign for negative numbers. */
  function IntToDecimal(n: int): (s: string)
    ensures |s| >= 1
    ensures s[0] == '-' <==> n < 0
  {
    if n < 0 then "-" + NatToDecimal(-n) else NatToDecimal(n)
  }

  /** The number a string of decimal digits denotes. */
  function DecimalValue(s: string): (n: nat)
    requires forall i | 0 <= i < |s| :: '0' <= s[i] <= '9'
  {
    if s == [] then 0 else 10 * DecimalValue(s[..|s| - 1]) + (s[|s| - 1] as int - '0' as int)
  }

  /** Reading back a rendered natural number gives the number. */
  lemma {:induction false} DecimalRoundTrip(n: nat)
    ensures DecimalValue(NatToDecimal(n)) == n
    decreases n
  {
    if n >= 10 {
      var s := NatToDecimal(n);
      assert s[..|s| - 1] == NatToDecimal(n / 10);
      DecimalRoundTrip(n / 10);
    }
  }

  /** Distinct natural numbers render to distinct strings. */
  lemma NatToDecimalInjective(a: nat, b: nat)
    requires NatToDecimal(a) == NatToDecimal(b)
    ensures a == b
  {
    DecimalRoundTrip(a);
    DecimalRoundTrip(b);
  }

  /** Distinct integers render to distinct strings. */
  lemma IntToDecimalInjective(a: int, b: int)
    requires IntToDecimal(a) == IntToDecimal(b)
    ensures a == b
  {
    if a < 0 && b < 0 {
      var s, t := NatToDecimal(-a), NatToDecimal(-b);
      assert s == ("-" + s)[1..] == ("-" + t)[1..] == t;
      NatToDecimalInjective(-a, -b);
    } else if a >= 0 && b >= 0 {
      NatToDecimalInjective(a, b);
    }
  }

  /** The coordinates a field is valid for. */
  lemma IsValidRange(f: Field)
    ensures f.IsValid() <==> 1 <= f.col <= 8 && 1 <= f.row <= 8
    ensures !Field(0, 2).IsValid() && !Field(2, 0).IsValid()
    ensures !Field(2, 9).IsValid() && !Field(9, 2).IsValid() && Field(2, 2).IsValid()
  {
  }

  /** A shift by (0, 0) keeps the field, and two shifts compose into one. */
  lemma RelativeComposes(f: Field, a: int, b: int, c: int, d: int)
    ensures f.Relative(0, 0) == f
    ensures f.Relative(a, b).Relative(c, d) == f.Relative(a + c, b + d)
  {
  }

  /** Shifting is not clipped: it may leave the board, as for c5 shifted by (9, 10). */
  lemma RelativeMayLeaveBoard()
    ensures Field(3, 5).IsValid() && Field(3, 5).Relative(9, 10) == Field(12, 15)
    ensures !Field(3, 5).Relative(9, 10).IsValid()
    ensures Field(6, 7).Relative(-2, -4) == Field(4, 3)
  {
  }

  /** White promotes on row 8 and Black on row 1. */
  lemma IsLastRowByColor(f: Field)
    ensures f.IsLastRow(White) <==> f.row == 8
    ensures f.IsLastRow(Black) <==> f.row == 1
  {
  }

  /** A valid field is named by exactly two characters: its column letter a..h and its row digit 1..8. */
  lemma ValidFieldName(f: Field)
    requires f.IsValid()
    ensures f.HasName()
    ensures |f.Name()| == 2
    ensures f.Name()[0] == "abcdefgh"[f.col - 1]
    ensures f.Name()[1] == "12345678"[f.row - 1]
  {
  }

  /** The name of a field identifies it. */
  lemma NameInjective(f: Field, g: Field)
    requires f.HasName() && g.HasName()
    requires f.Name() == g.Name()
    ensures f == g
  {
    assert f.col == g.col;
    assert IntToDecimal(f.row) == f.Name()[1..] == g.Name()[1..] == IntToDecimal(g.row);
    IntToDecimalInjective(f.row, g.row);
  }

  /** The names the source's examples show, including one of a field off the board. */
  lemma NameExamples()
    ensures Field(1, 1).Name() == "a1" && Field(1, 8).Name() == "a8"
    ensures Field(8, 1).Name() == "h1" && Field(8, 8).Name() == "h8"
    ensures Field(4, 5).Name() == "d5"
    ensures Field(12, 15).Name() == "l15"
  {
    assert NatToDecimal(15) == NatToDecimal(1) + [Digit(5)];
  }
}
