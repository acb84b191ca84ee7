/** Basic value types of the hexapawn engine: the optional occupant of a
    cell, the two players and grid coordinates. */
module TttTypes {

  /** An occupant that may be absent; `None` is the empty cell. */
  datatype Option<+T> = None | Some(value: T)

  /** The two sides. `X` moves first and starts on row 3; `O` starts on row 1. */
  datatype Player = X | O

  /** The opposing side. */
  function Other(p: Player): (r: Player)
    ensures r != p
  {
    match p
    case X => O
    case O => X
  }

  /** Taking the opponent twice gives back the original side. */
  lemma OtherInvolution(p: Player)
    ensures Other(Other(p)) == p
  {
  }

  /** A (row, column) coordinate; nothing confines it to the grid. */
  datatype Point = Point(row: int, col: int)
}
