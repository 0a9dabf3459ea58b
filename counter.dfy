/** The counter component of the Rust prototypes: a `u32` that the arrow
    keys and `j`/`k` move up and down, never below zero. */
module Counter {
  import opened Keys
  import Text

  const U32Max := 0xFFFF_FFFF
  type U32 = x: int | 0 <= x <= U32Max

  /** Whether a key code raises or lowers the counter. */
  predicate Raises(code: KeyCode)
  {
    code == Up || code == Char('j')
  }

  predicate Lowers(code: KeyCode)
  {
    code == Down || code == Char('k')
  }

  /** The counter after one key press, from its value before. */
  function KeyEffect(state: U32, code: KeyCode): (next: int)
    requires Raises(code) ==> state < U32Max
    ensures 0 <= next <= U32Max
    ensures Raises(code) ==> next == state + 1
    ensures Lowers(code) ==> next == (if state > 0 then state - 1 else 0)
    ensures !Raises(code) && !Lowers(code) ==> next == state
  {
    if Raises(code) then state + 1
    else if Lowers(code) then (if state > 0 then state - 1 else state)
    else state
  }

  /** Lowering undoes raising, and lowering at zero stays at zero. */
  lemma RaiseThenLower(state: U32)
    requires state < U32Max
    ensures KeyEffect(KeyEffect(state, Up), Down) == state
    ensures KeyEffect(KeyEffect(state, Char('j')), Char('k')) == state
    ensures KeyEffect(0, Down) == 0 && KeyEffect(0, Char('k')) == 0
  {
  }

  /** The text the widget shows. */
  function RenderText(state: U32): (text: string)
    ensures |text| > 9 && text[..9] == "Counter: "
  {
    "Counter: " + Text.NatToString(state)
  }

  /** The shown text determines the state. */
  lemma RenderReadsBack(state: U32)
    ensures Text.ParseDigits(RenderText(state)[9..]) == state
  {
    assert RenderText(state)[9..] == Text.NatToString(state);
    Text.ParseNatToString(state);
  }

  class Counter {
    var state: U32

    /** `Default`: zero. */
    constructor ()
      ensures state == 0
    {
      state := 0;
    }

    /** `increment`: a step past `u32::MAX` would overflow. */
    method Increment()
      requires state < U32Max
      modifies this
      ensures state == old(state) + 1
    {
      state := state + 1;
    }

    /** `decrement`: saturates at zero. */
    method Decrement()
      modifies this
      ensures state == if old(state) > 0 then old(state) - 1 else 0
    {
      if state > 0 {
        state := state - 1;
      }
    }

    /** `on_key_pressed`. */
    method OnKeyPressed(key: KeyEvent)
      requires Raises(key.code) ==> state < U32Max
      modifies this
      ensures state == KeyEffect(old(state), key.code)
    {
      match key.code {
        case Up => Increment();
        case Char('j') => Increment();
        case Down => Decrement();
        case Char('k') => Decrement();
        case _ =>
      }
    }

    /** The rendered text: the fixed prefix, then digits that read back
        as the current count. */
    function Render(): (text: string)
      reads this
      ensures text == RenderText(state)
      ensures |text| > 9 && text[..9] == "Counter: "
      ensures Text.ParseDigits(text[9..]) == state
    {
      RenderReadsBack(state);
      RenderText(state)
    }
  }
}
