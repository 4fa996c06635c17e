/** The keyboard keys the game reacts to; a frame's input is the set of keys just pressed. */
module Input {
  datatype Key = Right | Left | W | Q | S | A | X | Z | Return | N | OtherKey
}
