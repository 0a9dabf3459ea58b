/** The counter prototype's own Elm-style model: a signed 32-bit counter,
    a running flag, three messages and the key mapping that produces them. */
module CounterApp {
  import opened Wrappers
  import opened Keys

  const I32Min := -0x8000_0000
  const I32Max := 0x7FFF_FFFF
  type I32 = x: int | I32Min <= x <= I32Max

  datatype RunningState = Running | Stopped

  datatype Message = Increment | Decrement | Quit

  /** Whether `update` can apply msg without an `i32` overflow. */
  predicate NoOverflow(counter: I32, msg: Message)
  {
    (msg == Increment ==> counter < I32Max) && (msg == Decrement ==> counter > I32Min)
  }

  /** The model's fields after one message: the counter moves by one,
      up exactly on Increment and down exactly on Decrement, and only Quit
      touches the running state, which it stops. */
  function Step(counter: I32, running: RunningState, msg: Message): (r: (I32, RunningState))
    requires NoOverflow(counter, msg)
    ensures r.0 == counter + 1 <==> msg == Increment
    ensures r.0 == counter - 1 <==> msg == Decrement
    ensures r.0 == counter <==> msg == Quit
    ensures r.1 == (if msg == Quit then Stopped else running)
    ensures r.1 == Stopped <==> running == Stopped || msg == Quit
  {
    match msg
    case Increment => (counter + 1, running)
    case Decrement => (counter - 1, running)
    case Quit => (counter, Stopped)
  }

  /** Decrement undoes increment; there is no floor, so the counter goes
      negative from its default. */
  lemma IncrementDecrement(counter: I32)
    requires counter < I32Max
    ensures Step(Step(counter, Running, Increment).0, Running, Decrement) == (counter, Running)
    ensures Step(0, Running, Decrement).0 == -1
  {
  }

  class Model {
    var runningState: RunningState
    var counter: I32

    /** `Default`: running, at zero. */
    constructor ()
      ensures runningState == Running && counter == 0
    {
      runningState := Running;
      counter := 0;
    }

    /** `update`: never chains another message. */
    method Update(msg: Message) returns (next: Option<Message>)
      requires NoOverflow(counter, msg)
      modifies this
      ensures next == None
      ensures (counter, runningState) == Step(old(counter), old(runningState), msg)
    {
      match msg {
        case Increment => counter := counter + 1;
        case Decrement => counter := counter - 1;
        case Quit => runningState := Stopped;
      }
      next := None;
    }
  }

  /** `handle_key`: only `j`, `k` and `q` mean something; the arrows and the
      modifiers are ignored. */
  function HandleKey(key: KeyEvent): (m: Option<Message>)
    ensures m == Some(Increment) <==> key.code == Char('j')
    ensures m == Some(Decrement) <==> key.code == Char('k')
    ensures m == Some(Quit) <==> key.code == Char('q')
    ensures m.None? <==> key.code !in {Char('j'), Char('k'), Char('q')}
  {
    match key.code
    case Char('j') => Some(Increment)
    case Char('k') => Some(Decrement)
    case Char('q') => Some(Quit)
    case _ => None
  }
}
