/**
 * The application screen (src/App.tsx): the record built for a new task, the status
 * filter and its keyboard handling, and which of loading, error or list is shown.
 */
module App {
  import opened TodoTypes
  import opened Lists
  import TodoSlice

  /** A task as sent for creation: it has no id yet. */
  datatype NewTodo = NewTodo(title: string, status: Status, createdAt: int, updatedAt: int)

  /**
   * `handleAddTodo`: the submitted title, status Todo, and the two stamps from two successive
   * clock readings (`new Date()` is called twice).
   */
  function NewTodoRecord(title: string, firstReading: int, secondReading: int): (r: NewTodo)
    ensures r.title == title && r.status == Status.Todo
    ensures r.createdAt == firstReading && r.updatedAt == secondReading
    ensures firstReading <= secondReading ==> r.createdAt <= r.updatedAt
  {
    NewTodo(title, Status.Todo, firstReading, secondReading)
  }

  /**
   * `handleUpdateTodo` dispatches the store's `updateTodo` with the task a card emitted after an
   * edit: the stored entry gets the new title, keeps everything else, and is stamped again
   * with the store's own clock.
   */
  lemma EditReachesStore(items: seq<Todo>, todo: Todo, title: string, saveClock: int, storeClock: int)
    requires HasId(items, todo.id)
    ensures var r := TodoSlice.Updated(items, todo.(title := title, updatedAt := saveClock), storeClock);
      var k := TodoSlice.IndexOfId(items, todo.id);
      |r| == |items| && r[k] == todo.(title := title, updatedAt := storeClock) &&
      forall j :: 0 <= j < |items| && j != k ==> r[j] == items[j]
  {
  }

  datatype Filter = All | Only(status: Status)

  /** `statusOptions`: the filter buttons, in order. */
  const StatusOptions: seq<Filter> := [All, Only(Status.Todo), Only(Doing), Only(Done)]

  /** Every filter has exactly one button. */
  lemma StatusOptionsCoverFilters(f: Filter)
    ensures exists i :: 0 <= i < |StatusOptions| && StatusOptions[i] == f
    ensures forall i, j :: 0 <= i < j < |StatusOptions| ==> StatusOptions[i] != StatusOptions[j]
  {
    match f
    case All => assert StatusOptions[0] == f;
    case Only(s) =>
      match s
      case Todo => assert StatusOptions[1] == f;
      case Doing => assert StatusOptions[2] == f;
      case Done => assert StatusOptions[3] == f;
  }

  /** The test `status === 'all' ? true : todo.status === status`. */
  function Matches(f: Filter): Todo -> bool
  {
    (t: Todo) => f == All || t.status == f.status
  }

  /** `filteredTodos`. */
  function FilteredTodos(todos: seq<Todo>, f: Filter): (r: seq<Todo>)
    ensures f.Only? ==> forall i :: 0 <= i < |r| ==> r[i].status == f.status
  {
    Keep(todos, Matches(f))
  }

  lemma FilterAllIsIdentity(todos: seq<Todo>)
    ensures FilteredTodos(todos, All) == todos
  {
    KeepAll(todos, Matches(All));
  }

  /** Filtering by a status keeps, in input order, every task with that status and no other. */
  lemma FilterOnlyExact(todos: seq<Todo>, s: Status, t: Todo)
    ensures IsSubsequence(FilteredTodos(todos, Only(s)), todos)
    ensures multiset(FilteredTodos(todos, Only(s)))[t] == if t.status == s then multiset(todos)[t] else 0
  {
    KeepIsSubsequence(todos, Matches(Only(s)));
    KeepCount(todos, Matches(Only(s)), t);
  }

  /** Filtering by a status is the same selection the board makes for that column. */
  lemma FilterOnlyIsColumn(todos: seq<Todo>, s: Status)
    ensures FilteredTodos(todos, Only(s)) == Keep(todos, HasStatus(s))
  {
    KeepExtensional(todos, Matches(Only(s)), HasStatus(s));
  }

  /** What the screen shows. */
  datatype Screen = LoadingScreen | ErrorScreen(message: string) | NoTasks | TaskList(shown: seq<Todo>)

  /** JavaScript truthiness of `error`: null and the empty string are both falsy. */
  predicate ErrorShown(error: Option<string>)
  {
    error.Some? && error.value != ""
  }

  /** The render: loading wins over an error, an error over the list, and an empty list reads "No tasks found". */
  function Render(loading: bool, error: Option<string>, todos: seq<Todo>, f: Filter): (v: Screen)
    ensures v.LoadingScreen? <==> loading
    ensures v.ErrorScreen? <==> !loading && ErrorShown(error)
    ensures v.ErrorScreen? ==> v.message == error.value
    ensures v.NoTasks? <==> !loading && !ErrorShown(error) && FilteredTodos(todos, f) == []
    ensures v.TaskList? ==> v.shown == FilteredTodos(todos, f) && v.shown != []
  {
    if loading then LoadingScreen
    else if ErrorShown(error) then ErrorScreen(error.value)
    else
      var shown := FilteredTodos(todos, f);
      if |shown| == 0 then NoTasks else TaskList(shown)
  }

  /** The keys `handleKeyPress` answers. */
  predicate IsActivationKey(key: string)
  {
    key == "Enter" || key == " "
  }

  /** The filter selection, the `status` state of the screen. */
  class FilterBar {
    var status: Filter

    constructor ()
      ensures status == All
    {
      status := All;
    }

    /** A click on the button of `option`. */
    method Click(option: Filter)
      modifies this
      ensures status == option
    {
      status := option;
    }

    /** `handleKeyPress(e, () => setStatus(option))`: Enter or space selects, other keys pass through. */
    method KeyDown(key: string, option: Filter) returns (handled: bool)
      modifies this
      ensures handled <==> IsActivationKey(key)
      ensures status == if handled then option else old(status)
    {
      handled := IsActivationKey(key);
      if handled {
        status := option;
      }
    }
  }
}
