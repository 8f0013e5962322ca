/** A todo item and its status (src/model/todo.rs). */
module TodoModel {

  /** The two states a todo can be in; the source spells the second one `PROGESS`. */
  datatype TodoStatus = DONE | PROGESS

  /** A todo: its name and its status. Values, as the derived `Clone` makes them. */
  datatype Todo = Todo(name: string, status: TodoStatus)

  /** `Todo::new`: builds a todo from its two fields. */
  function New(name: string, status: TodoStatus): (t: Todo)
    ensures t.name == name
    ensures t.status == status
  {
    Todo(name, status)
  }

  /** The derived `Clone`: a field-by-field copy. */
  function Clone(t: Todo): (c: Todo)
    ensures c.name == t.name && c.status == t.status
    ensures c == t
  {
    Todo(t.name, t.status)
  }

  /** `TodoStatus` has exactly two variants. */
  lemma StatusCases(s: TodoStatus)
    ensures s == DONE || s == PROGESS
    ensures DONE != PROGESS
  {
  }
}
