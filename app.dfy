/** The application state that the Home screen's key handler reads and updates (src/app.rs). */
module AppModel {

  import opened Wrappers
  import opened TodoModel

  /**
   * A text input (`tui_input::Input`): its text and the cursor position within it.
   * How keys edit it lives in the library and is not modelled.
   */
  datatype Input = Input(value: string, cursor: nat)

  /** `Input::default()`, and what `reset` leaves behind: no text, cursor at the start. */
  const EmptyInput := Input("", 0)

  /** Which field of the "Add Todo Item" popup has keyboard focus. */
  datatype Focus = None | Name

  /** The selection of the todo list is a valid index, or absent. */
  predicate SelectionInBounds(selected: Option<nat>, len: nat)
  {
    selected.Some? ==> selected.value < len
  }

  /**
   * A snapshot of every `App` field the key handler touches:
   * `selected` stands for `list_state.selected()`, `focus` for `home_add_todo_focus`,
   * and `nameInput` / `summaryInput` for the two inputs of the popup.
   */
  datatype AppState = AppState(
    running: bool,
    todos: seq<Todo>,
    selected: Option<nat>,
    showPopup: bool,
    focus: Focus,
    nameInput: Input,
    summaryInput: Input)

  /** The bound that the list widget keeps: a selection always names an existing todo. */
  predicate Wf(s: AppState)
  {
    SelectionInBounds(s.selected, |s.todos|)
  }

  /** The state `quit` leaves behind. */
  function Quitted(s: AppState): (r: AppState)
    ensures !r.running
    ensures r.(running := s.running) == s
  {
    s.(running := false)
  }

  class App {
    var running: bool
    var todos: seq<Todo>
    var selected: Option<nat>
    var showPopup: bool
    var focus: Focus
    var nameInput: Input
    var summaryInput: Input

    ghost predicate Valid()
      reads this
    {
      SelectionInBounds(selected, |todos|)
    }

    /** The abstract value of this object. */
    function State(): (s: AppState)
      reads this
      ensures Valid() <==> Wf(s)
    {
      AppState(running, todos, selected, showPopup, focus, nameInput, summaryInput)
    }

    /** `App::default` (and `App::new`, which calls it). */
    constructor Default()
      ensures Valid()
      ensures running && todos == [] && selected == Option.None
      ensures !showPopup && focus == Focus.Name
      ensures nameInput == EmptyInput && summaryInput == EmptyInput
    {
      running := true;
      todos := [];
      selected := Option.None;
      showPopup := false;
      focus := Focus.Name;
      nameInput := EmptyInput;
      summaryInput := EmptyInput;
    }

    /** `App::tick`: does nothing. */
    method Tick()
      ensures State() == old(State())
    {
    }

    /** `App::quit`: stops the event loop by clearing `running`, and nothing else. */
    method Quit()
      modifies this`running
      ensures State() == Quitted(old(State()))
    {
      running := false;
    }
  }
}
