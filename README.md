# ttodo: the Home screen's key handler

ttodo is a terminal todo-list manager with one screen, "Home". The screen shows a list of
todos with a cursor. An "Add Todo Item" popup holds a name input. All behaviour lives in
`Home::handle_key`, which takes one key event and updates the `App` state in place. This
project models that handler, the helpers it calls and the `App` and `Todo` types it works on.

The model follows the source's own form:

- `todo.dfy` (module `TodoModel`): `TodoStatus` and `Todo` as datatypes, with `Todo::new`
  and the derived `Clone` as functions.
- `app.dfy` (module `AppModel`): `App` is a class whose fields the handler assigns. The
  fields are `running`, `todos`, `selected`, `showPopup`, `focus`, `nameInput` and
  `summaryInput`. `App::default` is its constructor, and `quit` and `tick` are its methods.
  `AppState` is the value of those fields, and `App.State()` gives it.
- `home.dfy` (module `HomeView`): `HandleKey`, `SetStatus`, the four `Select*` methods and
  `GetCurrentItem` are methods that update or read an `App`. Each updating method is proved
  against a specification function on `AppState`: `Step`, `MarkSelected` or `Moved`.
  `Run` applies `Step` once per key of a key sequence.
- `home_props.dfy` (module `HomeProps`): lemmas about `Step` and `Run`, one per branch of
  the handler, plus properties of whole key sequences.

Two library types are not modelled. They become parameters:

- `ratatui::ListState`'s `select_next`, `select_previous`, `select_first` and `select_last`
  (src/views/home.rs:95, 98, 101, 104) are given no list and no length, so on their own they
  can move the selection past the end. The list's length only reaches the `ListState` when
  the next frame renders the list (src/views/home.rs:163), and that render clamps the
  selection into the list. The model folds that render into each cursor move: a
  `ListWidget` maps a move, the current selection and the list length to the selection
  the following render leaves. `KeepsBound(widget)` says that selection lies inside the
  list. So `HandleKey`'s `KeepsBound(widget) ==> app.Valid()` describes the state once
  the next render has run, not the bare state `handle_key` returns. The class invariant
  `App.Valid()` (and `Wf` on values) says a selection is a valid index.
- `tui_input::Input` becomes an `Input` value: its text and its cursor position. Its
  `reset` and `Input::default()` become `EmptyInput`. `handle_event` becomes an
  `InputEditor`, which maps the old input and the key to the new input. Keys other than
  Enter, Esc, Up, Down and characters are told apart by a key code (`Other(code)`), so
  Backspace, Left and Home can each edit differently. The editor only ever touches the
  name input.

Where the code and the intended design differ, the model follows the code:

- Enter commits a todo only when NO field has focus (src/views/home.rs:27). With the name
  field focused, Enter goes to the name input instead.
- A commit leaves the popup open.
- `App::default` starts with the name field focused, so Enter right after the FIRST
  opening of the popup does not commit. The popup keeps its focus between openings: once
  Up or Down has moved the focus to no field, reopening with `e` and pressing Enter
  commits (`ReopenEnterCommits`).
- `e` opens the popup without setting the focus (src/views/home.rs:74-76).
- Closing the popup with `q`, `Q` or Esc does not clear the inputs (src/views/home.rs:51-53).
- `set_status` and `get_current_item` index the list without a bounds check
  (src/views/home.rs:92, 187). With a selection past the end, the source panics with a
  Vec index out of bounds. `SetStatus`, `GetCurrentItem` and `MarkSelected` require a
  selection inside the list, which rules out that panic path. The model does not turn an
  out-of-range selection into a no-op.
- In browsing mode only lower-case `q` quits. Upper-case `Q` is ignored there.
- An empty name can be committed.

## Model

| member | source | states |
|---|---|---|
| TodoModel.New | src/model/todo.rs:13-17 | the new todo's name and status are the arguments |
| TodoModel.Clone | src/model/todo.rs:1-10 | a clone has the same name and status as the original |
| TodoModel.StatusCases | src/model/todo.rs:2-5 | every status is DONE or PROGESS, and the two differ |
| AppModel.App.Default | src/app.rs:48-66 | a new app is running, has no todos, no selection, no popup, focus on the name field and both inputs empty; the selection invariant holds |
| AppModel.App.Tick | src/app.rs:75 | tick changes no field |
| AppModel.App.Quit | src/app.rs:78-80 | quit clears `running` and may modify no other field |
| AppModel.Quitted | src/app.rs:78-80 | the state after quit is not running and equals the old state in every other field |
| HomeProps.ReopenEnterCommits | src/views/home.rs:26-33 | with the focus on no field, `e` then Enter appends exactly one todo built from the name input and clears that input, because the popup keeps its focus between openings |
| HomeProps.QuitIdempotent | src/app.rs:78-80 | quitting twice gives the same state as quitting once |
| HomeView.CreateTodo | src/views/home.rs:80-85 | the created todo is named after the input and is in progress |
| HomeView.MarkSelected | src/views/home.rs:86-93 | the list keeps its length and names; only the selected todo takes the new status; with no selection the list is unchanged |
| HomeView.SetStatus | src/views/home.rs:86-93 | set_status changes only `todos`, to the list MarkSelected describes |
| HomeView.Moved | src/views/home.rs:94-105 | a cursor move changes only the selection, which becomes the widget's answer for that move, and keeps it inside the list when the widget does |
| HomeView.SelectFirst | src/views/home.rs:94-96 | select_first may modify only the selection, which becomes the widget's answer for a First move |
| HomeView.SelectLast | src/views/home.rs:97-99 | select_last: the same, for a Last move |
| HomeView.SelectPrev | src/views/home.rs:100-102 | select_prev: the same, for a Prev move |
| HomeView.SelectNext | src/views/home.rs:103-105 | select_next: the same, for a Next move |
| HomeView.GetCurrentItem | src/views/home.rs:181-188 | the result is absent exactly when nothing is selected, and is otherwise the selected todo |
| HomeView.Toggled | src/views/home.rs:43-50 | an arrow in the popup always changes the focus |
| HomeView.Forwarded | src/views/home.rs:34-41 | a forwarded key edits only the name input, and nothing at all when no field has focus |
| HomeView.PopupStep | src/views/home.rs:24-66 | in the popup, `running` and the selection never change, and the list either stays or gains exactly the todo built from the name input |
| HomeView.BrowseStep | src/views/home.rs:67-78 | while browsing, the focus and both inputs never change, and the list either stays or is the list after marking the selection DONE |
| HomeView.Step | src/views/home.rs:23-79 | one key keeps the selection inside the list and never shortens it |
| HomeView.Run | src/views/home.rs:23-79 | any key sequence keeps the selection inside the list |
| HomeView.HandleKey | src/views/home.rs:23-79 | handle_key leaves the app in the state Step gives for the old state and the key, and keeps the class invariant |
| HomeProps.PopupKeepsRunningAndSelection | src/views/home.rs:24-66 | while the popup is shown no key changes `running` or the selection |
| HomeProps.PopupEnterCommits | src/views/home.rs:26-33 | Enter with no field focused appends exactly one todo, named after the name input and in progress; earlier todos are kept; both inputs are cleared; nothing else changes |
| HomeProps.PopupEnterForwards | src/views/home.rs:27-41 | Enter with the name field focused leaves the todos alone and only edits the name input |
| HomeProps.PopupArrowTogglesFocus | src/views/home.rs:43-50 | Up and Down swap the focus and change nothing else |
| HomeProps.PopupArrowTwiceRestores | src/views/home.rs:43-50 | two arrow presses in the popup restore the whole state |
| HomeProps.PopupCloseKeepsForm | src/views/home.rs:51-53 | q, Q and Esc in the popup hide it and keep the todos, the focus and both inputs |
| HomeProps.PopupOtherKeyEdits | src/views/home.rs:54-63 | any other key in the popup edits the name input if it has focus and otherwise changes nothing |
| HomeProps.BrowseQuits | src/views/home.rs:68 | q and Esc while browsing clear `running` and change nothing else |
| HomeProps.BrowseOpensPopup | src/views/home.rs:74-76 | e while browsing shows the popup and changes nothing else, the focus included |
| HomeProps.BrowseMovesCursor | src/views/home.rs:69-72 | j/J/Down, k/K/Up, g and G hand the selection to the matching widget move and change nothing else |
| HomeProps.BrowseMarksDone | src/views/home.rs:73 | x marks only the selected todo DONE, keeps the length and every other field, and does nothing without a selection |
| HomeProps.BrowseIgnores | src/views/home.rs:77 | an unrecognised browsing key, Q included, changes nothing |
| HomeProps.GrowsTransitive | src/views/home.rs:30 | the "only appends and completes" relation on todo lists is transitive |
| HomeProps.StepGrows | src/views/home.rs:23-79 | one key never loses, renames or un-completes a todo |
| HomeProps.RunGrows | src/views/home.rs:23-79 | no key sequence loses, renames or un-completes a todo, so the list never shrinks |
| HomeProps.RunStaysStopped | src/views/home.rs:68 | once `running` is false no key sequence sets it back |
| HomeProps.OpenTypeClose | src/views/home.rs:51-53 | opening the popup, typing a character and pressing Esc keeps the todos and returns to browsing, but keeps the typed text in the name input |

## Left out

- Rendering: `Home::render`, `render_popup`, `render_todo_list`, `render_todo_list_area`,
  `render_selected_todo` and src/ui.rs. They draw the state. The one field they can
  change is the selection: rendering the list (src/views/home.rs:163) clamps it into the
  list. The model keeps that clamp and folds it into the cursor moves (`ListWidget`).
- src/handler.rs forwards each key to `Home::handle_key` for the only screen and returns
  `Ok(())`. `HandleKey` stands for it. The `Screen` enum has one variant and is not modelled.
- `Home::new` builds a struct without fields. The handler methods take the `App` as a
  parameter instead.
- The list widget's cursor policy (clamp or wrap, what happens on an empty list) belongs to
  ratatui. The model assumes only that the selection stays inside the list (`KeepsBound`).
- Text editing inside `tui_input::Input`: how `handle_event` changes the text and the
  cursor, and `visual_scroll`. The model keeps the input's text and cursor and leaves the
  edit itself to the `InputEditor` parameter.
- Terminal events: crossterm's `KeyEvent` becomes the `Key` datatype. Modifiers and key
  kinds are not distinguished.
- The `App` fields the handler never touches: `screen`, `input_state`, `todo_name`,
  `input`, `home_add_todo_todo_name` and `home_add_todo_todo_summary`.
- The event loop, `tick` scheduling and terminal setup are I/O.
