/** Moves (chess/move.py), with the payload each kind of move carries. */
module Moves {
  import opened Fields
  import opened Figures

  /** The four kinds of move. */
  datatype MoveType = RegularMove | PromotionMove | EnPassantMove | CastlingMove

  /** A move from one field to another. The source keeps the extra data of a
      move in a keyword dictionary; here each kind carries exactly the entries
      that the board update reads: the promoted figure, the field of the pawn
      captured en passant, and the rook's origin and destination for castling.
      No coordinate is checked, so fields off the board are accepted. */
  datatype Move =
    | Regular(frm: Field, to: Field)
    | Promotion(frm: Field, to: Field, figure: Figure)
    | EnPassant(frm: Field, to: Field, captured: Field)
    | Castling(frm: Field, to: Field, rookFrom: Field, rookTo: Field)
  {
    /** The kind of the move. */
    function Type(): (t: MoveType)
      ensures t == RegularMove <==> Regular?
      ensures t == PromotionMove <==> Promotion?
      ensures t == EnPassantMove <==> EnPassant?
      ensures t == CastlingMove <==> Castling?
    {
      match this
      case Regular(_, _) => RegularMove
      case Promotion(_, _, _) => PromotionMove
      case EnPassant(_, _, _) => EnPassantMove
      case Castling(_, _, _, _) => CastlingMove
    }
  }

  /** Every move kind, in the order the source declares them. */
  function AllMoveTypes(): (ts: seq<MoveType>)
    ensures |ts| == 4
    ensures forall i, j | 0 <= i < j < |ts| :: ts[i] != ts[j]
  {
    [RegularMove, PromotionMove, EnPassantMove, CastlingMove]
  }

  /** No kind is missing from the list. */
  lemma MoveTypeListed(t: MoveType)
    ensures t in AllMoveTypes()
  {
    match t
    case RegularMove => case PromotionMove => case EnPassantMove => case CastlingMove =>
  }
}
