/** The part of a terminal key event the key handlers look at: the key code
    and the modifier flags (crossterm's `KeyEvent`). Only key presses reach
    the handlers, so the event kind is not kept. */
module Keys {

  datatype KeyCode =
    | Backspace | Enter | Left | Right | Up | Down | Home | End | PageUp | PageDown
    | Tab | BackTab | Delete | Insert | F(n: nat) | Char(c: char) | Null | Esc
    | Other

  datatype Modifier = Shift | Control | Alt | Super | Hyper | Meta

  datatype KeyEvent = KeyEvent(code: KeyCode, modifiers: set<Modifier>)
}
