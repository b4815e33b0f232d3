/**
 * The task-list store (src/store/slices/todoSlice.ts): the collection, a loading flag and
 * an error message, changed in place by five synchronous reducers.
 */
module TodoSlice {
  import opened TodoTypes
  import opened Lists

  /**
   * `findIndex(todo => todo.id === id)`: the first position holding `id`, or -1.
   */
  function IndexOfId(s: seq<Todo>, id: string): (k: int)
    ensures -1 <= k < |s|
    ensures k == -1 <==> !HasId(s, id)
    ensures k != -1 ==> s[k].id == id && forall j :: 0 <= j < k ==> s[j].id != id
  {
    if s == [] then -1
    else if s[0].id == id then 0
    else
      var k := IndexOfId(s[1..], id);
      if k == -1 then -1 else k + 1
  }

  /** `{...old, ...payload, updatedAt: now}`: the payload is a whole task, so only the stamp survives the merge. */
  function Stamped(payload: Todo, now: int): (t: Todo)
    ensures t.id == payload.id && t.title == payload.title && t.status == payload.status
    ensures t.createdAt == payload.createdAt && t.updatedAt == now
  {
    payload.(updatedAt := now)
  }

  /** The collection after `updateTodo(payload)` at clock `now`. */
  function Updated(s: seq<Todo>, payload: Todo, now: int): (r: seq<Todo>)
    ensures |r| == |s|
    ensures !HasId(s, payload.id) ==> r == s
    ensures HasId(s, payload.id) ==>
      var k := IndexOfId(s, payload.id);
      r[k] == Stamped(payload, now) &&
      (forall j :: 0 <= j < k ==> s[j].id != payload.id) &&
      (forall j :: 0 <= j < |s| && j != k ==> r[j] == s[j])
  {
    var k := IndexOfId(s, payload.id);
    if k == -1 then s else s[k := Stamped(payload, now)]
  }

  /** The test `todo => todo.id !== id` of `deleteTodo`. */
  function IdIsNot(id: string): Todo -> bool
  {
    (t: Todo) => t.id != id
  }

  /** The collection after `deleteTodo(id)`. */
  function WithoutId(s: seq<Todo>, id: string): (r: seq<Todo>)
    ensures !HasId(r, id)
  {
    Keep(s, IdIsNot(id))
  }

  /** Deleting keeps every other entry, as often as it occurred and in its original relative order. */
  lemma WithoutIdKeepsOthers(s: seq<Todo>, id: string, t: Todo)
    requires t.id != id
    ensures IsSubsequence(WithoutId(s, id), s)
    ensures multiset(WithoutId(s, id))[t] == multiset(s)[t]
  {
    KeepIsSubsequence(s, IdIsNot(id));
    KeepCount(s, IdIsNot(id), t);
  }

  /** Deleting an id that is not there changes nothing. */
  lemma WithoutAbsentId(s: seq<Todo>, id: string)
    requires !HasId(s, id)
    ensures WithoutId(s, id) == s
  {
    KeepAll(s, IdIsNot(id));
  }

  lemma WithoutIdIdempotent(s: seq<Todo>, id: string)
    ensures WithoutId(WithoutId(s, id), id) == WithoutId(s, id)
  {
    KeepIdempotent(s, IdIsNot(id));
  }

  /** With unique ids, deleting a present id shortens the collection by exactly one. */
  lemma {:induction false} WithoutPresentUniqueId(s: seq<Todo>, id: string)
    requires UniqueIds(s) && HasId(s, id)
    ensures |WithoutId(s, id)| == |s| - 1
  {
    var rest := s[1..];
    assert UniqueIds(rest) by {
      forall i, j | 0 <= i < j < |rest| ensures rest[i].id != rest[j].id {
        assert rest[i] == s[i + 1] && rest[j] == s[j + 1];
      }
    }
    if s[0].id == id {
      assert !HasId(rest, id) by {
        forall i | 0 <= i < |rest| ensures rest[i].id != id {
          assert rest[i] == s[i + 1];
        }
      }
      WithoutAbsentId(rest, id);
    } else {
      var i :| 0 <= i < |s| && s[i].id == id;
      assert rest[i - 1].id == id;
      WithoutPresentUniqueId(rest, id);
    }
  }

  /** Deleting never creates a duplicate id. */
  lemma {:induction false} WithoutIdKeepsUniqueIds(s: seq<Todo>, id: string)
    requires UniqueIds(s)
    ensures UniqueIds(WithoutId(s, id))
  {
    if s != [] {
      var rest := s[1..];
      assert UniqueIds(rest) by {
        forall i, j | 0 <= i < j < |rest| ensures rest[i].id != rest[j].id {
          assert rest[i] == s[i + 1] && rest[j] == s[j + 1];
        }
      }
      WithoutIdKeepsUniqueIds(rest, id);
      var w := WithoutId(rest, id);
      if s[0].id != id {
        assert WithoutId(s, id) == [s[0]] + w;
        forall k | 0 <= k < |w| ensures w[k].id != s[0].id {
          assert w[k] in rest;
          var m :| 0 <= m < |rest| && rest[m] == w[k];
          assert s[m + 1] == w[k];
        }
      } else {
        assert WithoutId(s, id) == w;
      }
    }
  }

  /** Appending keeps the ids unique exactly when the new id is not already there; `addTodo` does not check. */
  lemma AppendKeepsUniqueIds(s: seq<Todo>, t: Todo)
    ensures UniqueIds(s + [t]) <==> UniqueIds(s) && !HasId(s, t.id)
  {
    var r := s + [t];
    if UniqueIds(r) {
      forall i | 0 <= i < |s| ensures s[i].id != t.id {
        assert r[i] == s[i] && r[|s|] == t;
      }
      forall i, j | 0 <= i < j < |s| ensures s[i].id != s[j].id {
        assert r[i] == s[i] && r[j] == s[j];
      }
    }
  }

  /** Updating replaces an entry by one with the same id, so unique ids stay unique. */
  lemma UpdatedKeepsUniqueIds(s: seq<Todo>, payload: Todo, now: int)
    requires UniqueIds(s)
    ensures UniqueIds(Updated(s, payload, now))
  {
  }

  class TodoStore {
    var items: seq<Todo>
    var loading: bool
    var error: Option<string>

    /** `initialState`. */
    constructor ()
      ensures items == [] && !loading && error == None
    {
      items := [];
      loading := false;
      error := None;
    }

    /** `addTodo`: push the payload; no check for a duplicate id is made. */
    method AddTodo(payload: Todo)
      modifies this`items
      ensures items == old(items) + [payload]
      ensures old(UniqueIds(items)) && !old(HasId(items, payload.id)) ==> UniqueIds(items)
    {
      AppendKeepsUniqueIds(items, payload);
      items := items + [payload];
    }

    /** `updateTodo`: overwrite the first entry with the payload's id, stamped with the clock `now`. */
    method UpdateTodo(payload: Todo, now: int)
      modifies this`items
      ensures items == Updated(old(items), payload, now)
      ensures old(UniqueIds(items)) ==> UniqueIds(items)
    {
      if UniqueIds(items) {
        UpdatedKeepsUniqueIds(items, payload, now);
      }
      var todoIndex := IndexOfId(items, payload.id);
      if todoIndex != -1 {
        items := items[todoIndex := Stamped(payload, now)];
      }
    }

    /** `deleteTodo`: keep only the entries with another id. */
    method DeleteTodo(id: string)
      modifies this`items
      ensures items == WithoutId(old(items), id)
      ensures old(UniqueIds(items)) ==> UniqueIds(items)
    {
      if UniqueIds(items) {
        WithoutIdKeepsUniqueIds(items, id);
      }
      items := WithoutId(items, id);
    }

    method SetLoading(value: bool)
      modifies this`loading
      ensures loading == value
    {
      loading := value;
    }

    method SetError(value: Option<string>)
      modifies this`error
      ensures error == value
    {
      error := value;
    }
  }

  /** Create, complete and remove one task, as a client of the store sees it. */
  method StoreScenario(t: Todo, now: int)
  {
    var store := new TodoStore();
    store.AddTodo(t);
    assert store.items == [t];
    assert store.items[0].id == t.id;
    store.UpdateTodo(t.(status := Done), now);
    assert store.items == [t.(status := Done, updatedAt := now)];
    store.DeleteTodo(t.id);
    assert store.items == [];
    assert !store.loading && store.error == None;
  }
}
