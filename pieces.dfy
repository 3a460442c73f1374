/**
  A chess piece as the board stores it (piece.py): a three-letter name such as
  "rbl" (rook, black, left) or the decoy name of three spaces, the square it
  stands on, whether it is still in play, and its display row and column.
  The class `Piece` models piece.py on its own; the board keeps its pieces as
  `PieceVal` records in one list (see the Boards module).
*/
module Pieces {

  /** The name every captured piece and every empty-square placeholder carries. */
  const DecoyName: string := "   "

  /** The fields of one piece at one moment. */
  datatype PieceVal = PieceVal(name: string, pos: string, state: bool, row: int, col: int)

  class Piece {
    var name: string
    var pos: string
    var state: bool
    var row: int
    var col: int

    /** Builds a piece from all five fields. */
    constructor (name: string, pos: string, state: bool, row: int, col: int)
      ensures Value() == PieceVal(name, pos, state, row, col)
    {
      this.name := name;
      this.pos := pos;
      this.state := state;
      this.row := row;
      this.col := col;
    }

    /** Builds a piece with the default arguments: in play, no display coordinates yet. */
    constructor Named(name: string, pos: string)
      ensures Value() == PieceVal(name, pos, true, -1, -1)
    {
      this.name := name;
      this.pos := pos;
      this.state := true;
      this.row := -1;
      this.col := -1;
    }

    /** The piece's current fields as a value. */
    function Value(): PieceVal
      reads this
    {
      PieceVal(name, pos, state, row, col)
    }

    /** Turns the piece into a captured decoy, where it stands. */
    method GotCaptured()
      modifies this
      ensures name == DecoyName && !state
      ensures pos == old(pos) && row == old(row) && col == old(col)
    {
      name := DecoyName;
      state := false;
    }
  }
}
