/** What the Home screen's key handler guarantees, stated over `Step` and `Run`. */
module HomeProps {

  import opened Wrappers
  import opened TodoModel
  import opened AppModel
  import opened HomeView

  /**
   * `b` is `a` after zero or more appends and status changes to DONE:
   * no todo is lost, renamed, reordered, or taken back out of DONE.
   */
  ghost predicate Grows(a: seq<Todo>, b: seq<Todo>)
  {
    |a| <= |b| &&
    forall i :: 0 <= i < |a| ==> b[i].name == a[i].name && (a[i].status == DONE ==> b[i].status == DONE)
  }

  lemma GrowsTransitive(a: seq<Todo>, b: seq<Todo>, c: seq<Todo>)
    requires Grows(a, b) && Grows(b, c)
    ensures Grows(a, c)
  {
  }

  // ---------------------------------------------------------------- popup shown

  /** The popup takes every key: `running` and the selection never change while it is shown. */
  lemma PopupKeepsRunningAndSelection(s: AppState, k: Key, widget: ListWidget, editor: InputEditor)
    requires Wf(s) && s.showPopup
    ensures var r := Step(s, k, widget, editor);
      r.running == s.running && r.selected == s.selected
  {
  }

  /** Enter with no field focused commits: one todo named after the name input is appended, both inputs are cleared. */
  lemma PopupEnterCommits(s: AppState, widget: ListWidget, editor: InputEditor)
    requires Wf(s) && s.showPopup && s.focus == Focus.None
    ensures var r := Step(s, Enter, widget, editor);
      && |r.todos| == |s.todos| + 1
      && r.todos[..|s.todos|] == s.todos
      && r.todos[|s.todos|].name == s.nameInput.value
      && r.todos[|s.todos|].status == PROGESS
      && r.nameInput == EmptyInput && r.summaryInput == EmptyInput
      && r.showPopup && r.focus == s.focus && r.running == s.running && r.selected == s.selected
  {
  }

  /** Enter with the name field focused does not commit; it only edits the name input. */
  lemma PopupEnterForwards(s: AppState, widget: ListWidget, editor: InputEditor)
    requires Wf(s) && s.showPopup && s.focus == Focus.Name
    ensures var r := Step(s, Enter, widget, editor);
      r.todos == s.todos && r == s.(nameInput := editor(s.nameInput, Enter))
  {
  }

  /** Up and Down each swap the focus and change nothing else. */
  lemma PopupArrowTogglesFocus(s: AppState, k: Key, widget: ListWidget, editor: InputEditor)
    requires Wf(s) && s.showPopup && (k == Up || k == Down)
    ensures var r := Step(s, k, widget, editor);
      r.focus != s.focus && r == s.(focus := Toggled(s.focus))
  {
  }

  /** Two arrow presses in the popup (the same key twice, or one of each) give back the state they started from. */
  lemma PopupArrowTwiceRestores(s: AppState, k1: Key, k2: Key, widget: ListWidget, editor: InputEditor)
    requires Wf(s) && s.showPopup
    requires (k1 == Up || k1 == Down) && (k2 == Up || k2 == Down)
    ensures Step(Step(s, k1, widget, editor), k2, widget, editor) == s
  {
  }

  /** `q`, `Q` and Esc close the popup; the todos, the focus and both inputs are kept as they are. */
  lemma PopupCloseKeepsForm(s: AppState, k: Key, widget: ListWidget, editor: InputEditor)
    requires Wf(s) && s.showPopup && (k == Esc || k == Char('q') || k == Char('Q'))
    ensures Step(s, k, widget, editor) == s.(showPopup := false)
  {
  }

  /** Every other key goes to the focused input: the name input is edited if it has focus, and nothing else changes. */
  lemma PopupOtherKeyEdits(s: AppState, k: Key, widget: ListWidget, editor: InputEditor)
    requires Wf(s) && s.showPopup
    requires k != Enter && k != Up && k != Down && k != Esc && k != Char('q') && k != Char('Q')
    ensures var r := Step(s, k, widget, editor);
      r == if s.focus == Focus.Name then s.(nameInput := editor(s.nameInput, k)) else s
  {
  }

  // ---------------------------------------------------------------- browsing

  /** `q` and Esc stop the application and change nothing else. */
  lemma BrowseQuits(s: AppState, k: Key, widget: ListWidget, editor: InputEditor)
    requires Wf(s) && !s.showPopup && (k == Esc || k == Char('q'))
    ensures Step(s, k, widget, editor) == s.(running := false)
  {
  }

  /** `e` shows the popup without touching the focus, the inputs or the todos. */
  lemma BrowseOpensPopup(s: AppState, widget: ListWidget, editor: InputEditor)
    requires Wf(s) && !s.showPopup
    ensures Step(s, Char('e'), widget, editor) == s.(showPopup := true)
  {
  }

  /** The navigation keys hand the selection to the list widget and change nothing else. */
  lemma BrowseMovesCursor(s: AppState, k: Key, widget: ListWidget, editor: InputEditor)
    requires Wf(s) && !s.showPopup
    ensures k in {Down, Char('j'), Char('J')} ==> Step(s, k, widget, editor) == s.(selected := widget(Next, s.selected, |s.todos|))
    ensures k in {Up, Char('k'), Char('K')} ==> Step(s, k, widget, editor) == s.(selected := widget(Prev, s.selected, |s.todos|))
    ensures k == Char('g') ==> Step(s, k, widget, editor) == s.(selected := widget(First, s.selected, |s.todos|))
    ensures k == Char('G') ==> Step(s, k, widget, editor) == s.(selected := widget(Last, s.selected, |s.todos|))
  {
  }

  /** `x` marks the selected todo DONE and touches no other todo and no other field; with no selection it does nothing. */
  lemma BrowseMarksDone(s: AppState, widget: ListWidget, editor: InputEditor)
    requires Wf(s) && !s.showPopup
    ensures var r := Step(s, Char('x'), widget, editor);
      && |r.todos| == |s.todos|
      && r.(todos := s.todos) == s
      && (s.selected.None? ==> r == s)
      && (s.selected.Some? ==> r.todos[s.selected.value] == s.todos[s.selected.value].(status := DONE))
      && (forall j :: 0 <= j < |s.todos| && s.selected != Option.Some(j) ==> r.todos[j] == s.todos[j])
  {
  }

  /** A browsing key the handler does not recognise changes nothing (`Q` included: only the popup closes on it). */
  lemma BrowseIgnores(s: AppState, k: Key, widget: ListWidget, editor: InputEditor)
    requires Wf(s) && !s.showPopup
    requires k !in {Esc, Up, Down, Char('q'), Char('j'), Char('J'), Char('k'), Char('K'),
                    Char('g'), Char('G'), Char('x'), Char('e')}
    ensures Step(s, k, widget, editor) == s
  {
  }

  // ---------------------------------------------------------------- whole runs

  /** One key never loses, renames or un-completes a todo. */
  lemma StepGrows(s: AppState, k: Key, widget: ListWidget, editor: InputEditor)
    requires Wf(s)
    ensures Grows(s.todos, Step(s, k, widget, editor).todos)
  {
  }

  /** No sequence of keys loses, renames or un-completes a todo: `|todos|` never decreases. */
  lemma {:induction false} RunGrows(s: AppState, keys: seq<Key>, widget: ListWidget, editor: InputEditor)
    requires Wf(s) && KeepsBound(widget)
    ensures Grows(s.todos, Run(s, keys, widget, editor).todos)
    decreases |keys|
  {
    if keys == [] {
    } else {
      var t := Step(s, keys[0], widget, editor);
      StepGrows(s, keys[0], widget, editor);
      RunGrows(t, keys[1..], widget, editor);
      GrowsTransitive(s.todos, t.todos, Run(t, keys[1..], widget, editor).todos);
    }
  }

  /** Once stopped, the application stays stopped: no key sets `running` back to true. */
  lemma {:induction false} RunStaysStopped(s: AppState, keys: seq<Key>, widget: ListWidget, editor: InputEditor)
    requires Wf(s) && KeepsBound(widget) && !s.running
    ensures !Run(s, keys, widget, editor).running
    decreases |keys|
  {
    if keys != [] {
      RunStaysStopped(Step(s, keys[0], widget, editor), keys[1..], widget, editor);
    }
  }

  /**
   * Opening the popup, typing one character and pressing Esc leaves the todos as they were and
   * returns to browsing, but keeps what was typed in the name input (closing does not reset it).
   */
  lemma OpenTypeClose(s: AppState, c: char, widget: ListWidget, editor: InputEditor)
    requires Wf(s) && KeepsBound(widget) && !s.showPopup && c != 'q' && c != 'Q'
    ensures var r := Run(s, [Char('e'), Char(c), Esc], widget, editor);
      && r.todos == s.todos && !r.showPopup && r.running == s.running && r.focus == s.focus
      && r.nameInput == (if s.focus == Focus.Name then editor(s.nameInput, Char(c)) else s.nameInput)
  {
    var s1 := Step(s, Char('e'), widget, editor);
    var s2 := Step(s1, Char(c), widget, editor);
    var s3 := Step(s2, Esc, widget, editor);
    assert [Char('e'), Char(c), Esc][1..] == [Char(c), Esc];
    assert [Char(c), Esc][1..] == [Esc];
    assert Run(s2, [Esc], widget, editor) == Run(s3, [], widget, editor);
  }

  /**
   * The popup keeps its focus between openings: reopened with no field focused,
   * `e` followed by Enter commits one todo.
   */
  lemma ReopenEnterCommits(s: AppState, widget: ListWidget, editor: InputEditor)
    requires Wf(s) && KeepsBound(widget) && !s.showPopup && s.focus == Focus.None
    ensures var r := Run(s, [Char('e'), Enter], widget, editor);
      && |r.todos| == |s.todos| + 1
      && r.todos[..|s.todos|] == s.todos
      && r.todos[|s.todos|] == CreateTodo(s.nameInput.value)
      && r.showPopup && r.nameInput == EmptyInput
  {
    var s1 := Step(s, Char('e'), widget, editor);
    var s2 := Step(s1, Enter, widget, editor);
    assert [Char('e'), Enter][1..] == [Enter];
    assert Run(s1, [Enter], widget, editor) == Run(s2, [], widget, editor);
  }

  /** `quit` twice is `quit` once. */
  lemma QuitIdempotent(s: AppState)
    ensures Quitted(Quitted(s)) == Quitted(s)
  {
  }
}
