/**
 * The kanban board (src/components/TodoBoard.tsx): three columns, each listing the tasks of
 * its status, and the drop handler that reports a status change.
 */
module TodoBoard {
  import opened TodoTypes
  import opened Lists

  datatype Column = Column(id: Status, title: string)

  /** `columns`. */
  const Columns: seq<Column> := [Column(Status.Todo, "To Do"), Column(Doing, "In Progress"), Column(Done, "Done")]

  /** The columns are Todo, Doing and Done, in that order, so each status has exactly one column. */
  lemma ColumnsAreTheStatuses(s: Status)
    ensures |Columns| == 3
    ensures Columns[0].id == Status.Todo && Columns[1].id == Doing && Columns[2].id == Done
    ensures exists i :: 0 <= i < |Columns| && Columns[i].id == s
    ensures forall i, j :: 0 <= i < j < |Columns| ==> Columns[i].id != Columns[j].id
  {
    match s
    case Todo => assert Columns[0].id == s;
    case Doing => assert Columns[1].id == s;
    case Done => assert Columns[2].id == s;
  }

  /** `todos.filter(todo => todo.status === column.id)`. */
  function ColumnTodos(todos: seq<Todo>, s: Status): (r: seq<Todo>)
    ensures forall i :: 0 <= i < |r| ==> r[i].status == s
  {
    Keep(todos, HasStatus(s))
  }

  /** A draggable card: the task and its position within the column. */
  datatype Card = Card(todo: Todo, index: nat)

  /** `.map((todo, index) => <Draggable draggableId={todo.id} index={index}>)`. */
  function ColumnCards(todos: seq<Todo>, s: Status): (r: seq<Card>)
    ensures |r| == |ColumnTodos(todos, s)|
    ensures forall i :: 0 <= i < |r| ==> r[i].index == i && r[i].todo.status == s
    ensures forall i :: 0 <= i < |r| ==> r[i].todo == ColumnTodos(todos, s)[i]
  {
    var col := ColumnTodos(todos, s);
    seq(|col|, i requires 0 <= i < |col| => Card(col[i], i))
  }

  /** Each column keeps, in input order, every task of its status, as often as it occurs. */
  lemma ColumnExact(todos: seq<Todo>, s: Status, t: Todo)
    ensures IsSubsequence(ColumnTodos(todos, s), todos)
    ensures multiset(ColumnTodos(todos, s))[t] == if t.status == s then multiset(todos)[t] else 0
  {
    KeepIsSubsequence(todos, HasStatus(s));
    KeepCount(todos, HasStatus(s), t);
  }

  /** The three columns together hold every task once: their sizes add up to the whole list. */
  lemma {:induction false} ColumnsPartition(todos: seq<Todo>)
    ensures |ColumnTodos(todos, Status.Todo)| + |ColumnTodos(todos, Doing)| + |ColumnTodos(todos, Done)| == |todos|
  {
    if todos != [] {
      ColumnsPartition(todos[1..]);
    }
  }

  /** Every task appears in the column of its own status, as often as in the list, and in no other. */
  lemma EachTodoInOneColumn(todos: seq<Todo>, t: Todo, s: Status)
    requires t in todos
    ensures multiset(ColumnTodos(todos, t.status))[t] == multiset(todos)[t] > 0
    ensures s != t.status ==> t !in ColumnTodos(todos, s)
  {
    ColumnExact(todos, t.status, t);
  }

  datatype Destination = Destination(droppableId: Status, index: nat)
  datatype DropResult = DropResult(draggableId: string, destination: Option<Destination>)

  /** `handleDragEnd`: a drop outside every column reports nothing; a drop on a column reports its status. */
  function HandleDragEnd(result: DropResult): (e: Option<Event>)
    ensures e == None <==> result.destination == None
    ensures e != None ==> e.value == StatusChange(result.draggableId, result.destination.value.droppableId)
  {
    match result.destination
    case None => None
    case Some(destination) => Some(StatusChange(result.draggableId, destination.droppableId))
  }

  /** Dropping a card on the Done column reports Done at once: no confirmation step is involved. */
  lemma DropOnDoneSkipsApproval(draggableId: string, index: nat)
    ensures HandleDragEnd(DropResult(draggableId, Some(Destination(Done, index)))) == Some(StatusChange(draggableId, Done))
  {
  }
}
