/** Key handling of the Rust execution-flow front end: a key press becomes
    at most one message, chosen by the key code and the input mode alone. */
module TuiEvents {
  import opened Wrappers
  import opened Keys

  /** The user actions `update` understands. */
  datatype Message =
    | NavigateUp
    | NavigateDown
    | EnterEditMode
    | ExitEditMode
    | InputChar(c: char)
    | DeleteChar
    | SubmitPrompt
    | Quit

  /** `InputMode` (declared beside the model; kept here so that the key
      handler and the model share it without a cycle of imports). */
  datatype InputMode = Normal | Editing

  /** `handle_normal_mode`. */
  function HandleNormalMode(key: KeyEvent): (m: Option<Message>)
    ensures m == Some(Quit) <==> key.code == Char('q')
    ensures m == Some(EnterEditMode) <==> key.code == Char('i')
    ensures m == Some(NavigateUp) <==> key.code == Up
    ensures m == Some(NavigateDown) <==> key.code == Down
    ensures m.None? <==> key.code !in {Char('q'), Char('i'), Up, Down}
  {
    match key.code
    case Char('q') => Some(Quit)
    case Char('i') => Some(EnterEditMode)
    case Up => Some(NavigateUp)
    case Down => Some(NavigateDown)
    case _ => None
  }

  /** `handle_editing_mode`: every character, `q` and `i` included, is
      typed into the input. */
  function HandleEditingMode(key: KeyEvent): (m: Option<Message>)
    ensures m == Some(SubmitPrompt) <==> key.code == Enter
    ensures m == Some(DeleteChar) <==> key.code == Backspace
    ensures m == Some(ExitEditMode) <==> key.code == Esc
    ensures key.code.Char? <==> m.Some? && m.value.InputChar?
    ensures key.code.Char? ==> m == Some(InputChar(key.code.c))
    ensures m.None? <==> !key.code.Char? && key.code !in {Enter, Backspace, Esc}
  {
    match key.code
    case Enter => Some(SubmitPrompt)
    case Char(c) => Some(InputChar(c))
    case Backspace => Some(DeleteChar)
    case Esc => Some(ExitEditMode)
    case _ => None
  }

  /** `handle_key` dispatches on the input mode only. */
  function HandleKey(key: KeyEvent, mode: InputMode): (m: Option<Message>)
    ensures mode == Normal ==> m == HandleNormalMode(key)
    ensures mode == Editing ==> m == HandleEditingMode(key)
    ensures m.Some? && m.value in {Quit, EnterEditMode, NavigateUp, NavigateDown} ==> mode == Normal
    ensures m.Some? && (m.value.InputChar? || m.value in {SubmitPrompt, DeleteChar, ExitEditMode}) ==> mode == Editing
    ensures m == Some(Quit) <==> mode == Normal && key.code == Char('q')
    ensures mode == Editing && key.code.Char? ==> m == Some(InputChar(key.code.c))
  {
    match mode
    case Normal => HandleNormalMode(key)
    case Editing => HandleEditingMode(key)
  }

  /** Modifiers are never consulted: Ctrl+q quits like q. */
  lemma ModifiersIgnored(code: KeyCode, m1: set<Modifier>, m2: set<Modifier>, mode: InputMode)
    ensures HandleKey(KeyEvent(code, m1), mode) == HandleKey(KeyEvent(code, m2), mode)
    ensures HandleKey(KeyEvent(Char('q'), {Control}), Normal) == Some(Quit)
  {
  }

  /** The two modes produce disjoint kinds of messages: navigation, quit
      and entering edit mode only in normal mode; typing, deleting,
      submitting and leaving edit mode only in editing mode. */
  lemma ModesSeparate(key: KeyEvent)
    ensures var m := HandleNormalMode(key);
      m.Some? ==> m.value in {Quit, EnterEditMode, NavigateUp, NavigateDown}
    ensures var m := HandleEditingMode(key);
      m.Some? ==> m.value.InputChar? || m.value in {SubmitPrompt, DeleteChar, ExitEditMode}
  {
  }
}
