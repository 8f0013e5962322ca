/**
 * The Home screen's key handler (src/views/home.rs): a specification `Step` over
 * `AppState` values, and the handler itself as methods that update an `App` in place.
 */
module HomeView {

  import opened Wrappers
  import opened TodoModel
  import opened AppModel

  /**
   * The key codes of a key event. `Other` stands for every remaining key code
   * (Backspace, Left, Home, ...), told apart by `code`.
   */
  datatype Key = Enter | Esc | Up | Down | Char(c: char) | Other(code: nat)

  /** The four cursor moves of the todo list (`select_next`, `select_previous`, `select_first`, `select_last`). */
  datatype Move = Next | Prev | First | Last

  /**
   * The list widget's cursor moves, which live in a library: the selection it settles on,
   * given the move, the current selection and the number of todos.
   */
  type ListWidget = (Move, Option<nat>, nat) -> Option<nat>

  /** The text input's `handle_event`, which lives in a library: the input after a forwarded key. */
  type InputEditor = (Input, Key) -> Input

  /** The list widget keeps every selection inside the list. */
  ghost predicate KeepsBound(widget: ListWidget)
  {
    forall m: Move, sel: Option<nat>, n: nat :: SelectionInBounds(widget(m, sel, n), n)
  }

  /** `create_todo`: a new todo, still in progress, named after the input. */
  function CreateTodo(name: string): (t: Todo)
    ensures t.name == name
    ensures t.status == PROGESS
  {
    Todo(name, PROGESS)
  }

  /** The todo list after `set_status`: the selected todo takes `status`, if there is a selection. */
  function MarkSelected(todos: seq<Todo>, selected: Option<nat>, status: TodoStatus): (r: seq<Todo>)
    requires SelectionInBounds(selected, |todos|)
    ensures |r| == |todos|
    ensures selected.None? ==> r == todos
    ensures forall j :: 0 <= j < |r| ==> r[j].name == todos[j].name
    ensures forall j :: 0 <= j < |r| ==>
      r[j].status == (if selected == Option.Some(j) then status else todos[j].status)
  {
    match selected
    case None => todos
    case Some(i) => todos[i := todos[i].(status := status)]
  }

  /** The state after a cursor move: only the selection changes, to what the widget chose. */
  function Moved(s: AppState, m: Move, widget: ListWidget): (r: AppState)
    ensures r.(selected := s.selected) == s
    ensures r.selected == widget(m, s.selected, |s.todos|)
    ensures KeepsBound(widget) ==> Wf(r)
  {
    s.(selected := widget(m, s.selected, |s.todos|))
  }

  /** Up and Down in the popup swap focus between no field and the name field. */
  function Toggled(f: Focus): (g: Focus)
    ensures g != f
  {
    match f
    case None => Focus.Name
    case Name => Focus.None
  }

  /** A key handed to the focused input: only the name input can be focused, so only it is edited. */
  function Forwarded(s: AppState, k: Key, editor: InputEditor): (r: AppState)
    ensures s.focus == Focus.None ==> r == s
    ensures r.(nameInput := s.nameInput) == s
  {
    match s.focus
    case None => s
    case Name => s.(nameInput := editor(s.nameInput, k))
  }

  /** The popup branch of `handle_key`. */
  function PopupStep(s: AppState, k: Key, editor: InputEditor): (r: AppState)
    ensures r.running == s.running && r.selected == s.selected
    ensures r.todos == s.todos || r.todos == s.todos + [CreateTodo(s.nameInput.value)]
  {
    match k
    case Enter =>
      if s.focus == Focus.None then
        s.(todos := s.todos + [CreateTodo(s.nameInput.value)], summaryInput := EmptyInput, nameInput := EmptyInput)
      else
        Forwarded(s, k, editor)
    case Up => s.(focus := Toggled(s.focus))
    case Down => s.(focus := Toggled(s.focus))
    case Char('Q') | Esc | Char('q') => s.(showPopup := false)
    case _ => Forwarded(s, k, editor)
  }

  /** The browsing branch of `handle_key`. */
  function BrowseStep(s: AppState, k: Key, widget: ListWidget): (r: AppState)
    requires Wf(s)
    ensures r.todos == s.todos || r.todos == MarkSelected(s.todos, s.selected, DONE)
    ensures r.focus == s.focus && r.nameInput == s.nameInput && r.summaryInput == s.summaryInput
  {
    match k
    case Char('q') | Esc => Quitted(s)
    case Down | Char('j') | Char('J') => Moved(s, Next, widget)
    case Up | Char('k') | Char('K') => Moved(s, Prev, widget)
    case Char('G') => Moved(s, Last, widget)
    case Char('g') => Moved(s, First, widget)
    case Char('x') => s.(todos := MarkSelected(s.todos, s.selected, DONE))
    case Char('e') => s.(showPopup := true)
    case _ => s
  }

  /** `handle_key` as a transition on states: the popup, when shown, takes every key. */
  function Step(s: AppState, k: Key, widget: ListWidget, editor: InputEditor): (r: AppState)
    requires Wf(s)
    ensures KeepsBound(widget) ==> Wf(r)
    ensures |r.todos| >= |s.todos|
  {
    if s.showPopup then PopupStep(s, k, editor) else BrowseStep(s, k, widget)
  }

  /** The state after a sequence of keys, one `handle_key` call per key. */
  function Run(s: AppState, keys: seq<Key>, widget: ListWidget, editor: InputEditor): (r: AppState)
    requires Wf(s) && KeepsBound(widget)
    ensures Wf(r)
    decreases |keys|
  {
    if keys == [] then s else Run(Step(s, keys[0], widget, editor), keys[1..], widget, editor)
  }

  /** `Home::handle_key`. */
  method HandleKey(app: App, k: Key, widget: ListWidget, editor: InputEditor)
    requires app.Valid()
    modifies app
    ensures app.State() == Step(old(app.State()), k, widget, editor)
    ensures KeepsBound(widget) ==> app.Valid()
  {
    if app.showPopup {
      match k {
        case Enter =>
          if app.focus == Focus.None {
            var todo := CreateTodo(app.nameInput.value);
            app.todos := app.todos + [todo];
            app.summaryInput := EmptyInput;
            app.nameInput := EmptyInput;
          }
          match app.focus {
            case None =>
            case Name => app.nameInput := editor(app.nameInput, k);
          }
        case Up =>
          match app.focus {
            case None => app.focus := Focus.Name;
            case Name => app.focus := Focus.None;
          }
        case Down =>
          match app.focus {
            case None => app.focus := Focus.Name;
            case Name => app.focus := Focus.None;
          }
        case Char('Q') | Esc | Char('q') =>
          app.showPopup := false;
        case _ =>
          match app.focus {
            case None =>
            case Name => app.nameInput := editor(app.nameInput, k);
          }
      }
      return;
    }
    match k {
      case Char('q') | Esc => app.Quit();
      case Down | Char('j') | Char('J') => SelectNext(app, widget);
      case Up | Char('k') | Char('K') => SelectPrev(app, widget);
      case Char('G') => SelectLast(app, widget);
      case Char('g') => SelectFirst(app, widget);
      case Char('x') => SetStatus(app, DONE);
      case Char('e') => app.showPopup := true;
      case _ =>
    }
  }

  /** `set_status`: gives the selected todo a new status; with no selection it does nothing. */
  method SetStatus(app: App, status: TodoStatus)
    requires app.Valid()
    modifies app`todos
    ensures app.todos == MarkSelected(old(app.todos), app.selected, status)
  {
    var idx := app.selected;
    if idx.None? {
      return;
    }
    var i := idx.value;
    app.todos := app.todos[i := app.todos[i].(status := status)];
  }

  /** `select_first`: the widget moves the cursor; only the selection changes. */
  method SelectFirst(app: App, widget: ListWidget)
    modifies app`selected
    ensures app.State() == Moved(old(app.State()), First, widget)
  {
    app.selected := widget(First, app.selected, |app.todos|);
  }

  /** `select_last`. */
  method SelectLast(app: App, widget: ListWidget)
    modifies app`selected
    ensures app.State() == Moved(old(app.State()), Last, widget)
  {
    app.selected := widget(Last, app.selected, |app.todos|);
  }

  /** `select_prev`. */
  method SelectPrev(app: App, widget: ListWidget)
    modifies app`selected
    ensures app.State() == Moved(old(app.State()), Prev, widget)
  {
    app.selected := widget(Prev, app.selected, |app.todos|);
  }

  /** `select_next`. */
  method SelectNext(app: App, widget: ListWidget)
    modifies app`selected
    ensures app.State() == Moved(old(app.State()), Next, widget)
  {
    app.selected := widget(Next, app.selected, |app.todos|);
  }

  /** `get_current_item`: a copy of the selected todo, or nothing when no todo is selected. */
  method GetCurrentItem(app: App) returns (item: Option<Todo>)
    requires app.Valid()
    ensures item.None? <==> app.selected.None?
    ensures app.selected.Some? ==> item == Option.Some(app.todos[app.selected.value])
  {
    var idx := app.selected;
    if idx.None? {
      return Option.None;
    }
    var i := idx.value;
    return Option.Some(Clone(app.todos[i]));
  }
}
