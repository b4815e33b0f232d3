/** The task entity and the values the views pass around (src/types/todo.ts). */
module TodoTypes {

  datatype Option<+T> = None | Some(value: T)

  /** The three workflow states of a task; the views only relabel them. */
  datatype Status = Todo | Doing | Done

  /** A task. The source's `Date` fields are integer timestamps here. */
  datatype Todo = Todo(id: string, title: string, status: Status, createdAt: int, updatedAt: int)

  /** A call a view makes on one of its callbacks (`onStatusChange`, `onUpdate`, `onDelete`). */
  datatype Event =
    | StatusChange(id: string, status: Status)
    | Update(todo: Todo)
    | Delete(id: string)

  /** No two entries share an id: what the design wants of the collection, which the store does not check. */
  predicate UniqueIds(s: seq<Todo>)
  {
    forall i, j :: 0 <= i < j < |s| ==> s[i].id != s[j].id
  }

  predicate HasId(s: seq<Todo>, id: string)
  {
    exists i :: 0 <= i < |s| && s[i].id == id
  }

  /** The filter test `todo => todo.status === s`. */
  function HasStatus(s: Status): Todo -> bool
  {
    (t: Todo) => t.status == s
  }
}
