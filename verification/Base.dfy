/** Small shared types: options, bytes, directions and commands. */
module Base {

  datatype Option<+T> = None | Some(value: T)

  /** A Rust `u8`. */
  type U8 = x: int | 0 <= x <= 255

  datatype Direction = Opening | Closing

  datatype GateCommand = Open | Close | Stop | Impulse

  function Opposite(d: Direction): Direction {
    if d.Opening? then Closing else Opening
  }

  function CommandFor(d: Direction): GateCommand {
    if d.Opening? then Open else Close
  }

  function Min(x: int, y: int): int {
    if x < y then x else y
  }

  function Max(x: int, y: int): int {
    if x < y then y else x
  }
}
