/**
 The four operations of the task-list service as pure transitions. Each one
 takes the in-memory lists and the outcome of the awaited store call it makes,
 and returns the new lists together with the store requests it issued. An
 operation touches the in-memory lists only after its store call resolved, so
 a rejected call leaves them as they were.
 */
module App {
  import opened Outcomes
  import opened Text
  import opened Tasks
  import opened Records

  /** A call into the remote store, addressed by collection under `tasks/public`. */
  datatype Request =
    | Query(collection: string)                                   // every document, newest `createdAt` first
    | Create(collection: string, fields: Fields)                  // `collectionRef.add(newTask)`
    | Remove(collection: string, id: DocId)                       // `.doc(id).delete()`
    | SetCompleted(collection: string, id: DocId, completed: bool) // `.doc(id).update({completed})`

  /** The lists after an operation, and the store requests it made, in order. */
  datatype Step = Step(lists: TaskLists, requests: seq<Request>)

  /** `loadTasks`: fetch the todo collection, then the notTodo collection, and
      only once both fetches resolved replace both lists with what they
      returned. The second fetch is only issued when the first one resolved. */
  function LoadTasks(st: TaskLists, todoFetch: Outcome<seq<Doc>>, notTodoFetch: Outcome<seq<Doc>>): (r: Step)
    ensures r.requests ==
      if todoFetch.Ok? then [Query(CollectionName(Todo)), Query(CollectionName(NotTodo))]
      else [Query(CollectionName(Todo))]
    ensures todoFetch.Err? || notTodoFetch.Err? ==> r.lists == st
    ensures todoFetch.Ok? && notTodoFetch.Ok? ==>
      && |r.lists.todo| == |todoFetch.value|
      && |r.lists.notTodo| == |notTodoFetch.value|
      && (forall k | 0 <= k < |todoFetch.value| ::
            r.lists.todo[k].id == todoFetch.value[k].id && r.lists.todo[k].Data() == todoFetch.value[k].data)
      && (forall k | 0 <= k < |notTodoFetch.value| ::
            r.lists.notTodo[k].id == notTodoFetch.value[k].id && r.lists.notTodo[k].Data() == notTodoFetch.value[k].data)
  {
    var first := Query(CollectionName(Todo));
    match todoFetch
    case Err(_) => Step(st, [first])
    case Ok(todoDocs) =>
      var second := Query(CollectionName(NotTodo));
      match notTodoFetch
      case Err(_) => Step(st, [first, second])
      case Ok(notTodoDocs) => Step(TaskLists(FromDocs(todoDocs), FromDocs(notTodoDocs)), [first, second])
  }

  /** `addTask`: trim the input; if nothing is left, do nothing at all.
      Otherwise write a new document to the selected collection and, once the
      store assigned it a key, put the record at the front of the selected list. */
  function AddTask(st: TaskLists, input: string, kind: string, created: Outcome<DocId>): (r: Step)
    ensures r.requests == [] <==> AllWhitespace(input)
    ensures r.requests != [] ==>
      r.requests == [Create(CollectionName(SelectCategory(kind)), Fields(Trim(input), false, ServerTimestamp))]
    ensures r.requests != [] ==> Trim(input) != [] && IsTrimmed(Trim(input))
    ensures AllWhitespace(input) || created.Err? ==> r.lists == st
    ensures !AllWhitespace(input) && created.Ok? ==>
      var c := SelectCategory(kind);
      && |r.lists.Get(c)| == |st.Get(c)| + 1
      && r.lists.Get(c)[0] == Task(created.value, Trim(input), false, ServerTimestamp)
      && r.lists.Get(c)[1..] == st.Get(c)
      && r.lists.Get(c.Other()) == st.Get(c.Other())
  {
    var text := Trim(input);
    if text == [] then Step(st, [])
    else
      var c := SelectCategory(kind);
      var request := Create(CollectionName(c), Fields(text, false, ServerTimestamp));
      match created
      case Err(_) => Step(st, [request])
      case Ok(id) =>
        var task := Task(id, text, false, ServerTimestamp);
        Step(st.Put(c, [task] + st.Get(c)), [request])
  }

  /** `deleteTask`: delete the document from the selected collection, with no
      check that it exists, and once that resolved drop every record with the
      id from the selected list. */
  function DeleteTask(st: TaskLists, id: DocId, kind: string, removed: Outcome<()>): (r: Step)
    ensures r.requests == [Remove(CollectionName(SelectCategory(kind)), id)]
    ensures removed.Err? ==> r.lists == st
    ensures removed.Ok? ==>
      var c := SelectCategory(kind);
      && r.lists.Get(c) == Without(st.Get(c), id)
      && r.lists.Get(c.Other()) == st.Get(c.Other())
      && |r.lists.Get(c)| <= |st.Get(c)|
      && (forall t | t in r.lists.Get(c) :: t in st.Get(c) && t.id != id)
      && (forall t | t in st.Get(c) && t.id != id :: t in r.lists.Get(c))
      && (r.lists == st <==> !HasId(st.Get(c), id))
  {
    var c := SelectCategory(kind);
    var request := Remove(CollectionName(c), id);
    match removed
    case Err(_) => Step(st, [request])
    case Ok(_) =>
      var s := st.Get(c);
      WithoutKeepsOthers(s, id);
      WithoutUnchangedIff(s, id);
      Step(st.Put(c, Without(s, id)), [request])
  }

  /** `toggleTask`: find the first record with the id in the selected list.
      When there is none, reading its `completed` throws before any store call
      and the error is caught: nothing happens. Otherwise write the negated
      flag to the store and, once that resolved, negate it on that record. */
  function ToggleTask(st: TaskLists, id: DocId, kind: string, updated: Outcome<()>): (r: Step)
    ensures !HasId(st.Get(SelectCategory(kind)), id) ==> r == Step(st, [])
    ensures updated.Err? ==> r.lists == st
    ensures HasId(st.Get(SelectCategory(kind)), id) ==>
      var c := SelectCategory(kind);
      var s := st.Get(c);
      var i := FirstIndex(s, id).value;
      && r.requests == [SetCompleted(CollectionName(c), id, !s[i].completed)]
      && (updated.Ok? ==>
            && r.lists.Get(c.Other()) == st.Get(c.Other())
            && |r.lists.Get(c)| == |s|
            && r.lists.Get(c)[i] == s[i].(completed := !s[i].completed)
            && (forall k | 0 <= k < |s| && k != i :: r.lists.Get(c)[k] == s[k]))
  {
    var c := SelectCategory(kind);
    var s := st.Get(c);
    match FirstIndex(s, id)
    case NotFound => Step(st, [])
    case Found(i) =>
      var request := SetCompleted(CollectionName(c), id, !s[i].completed);
      match updated
      case Err(_) => Step(st, [request])
      case Ok(_) => Step(st.Put(c, Flip(s, i)), [request])
  }

  /** Toggling the same record twice, with both store calls succeeding,
      restores both lists; the second call writes back the original flag. */
  lemma {:induction false} ToggleTwice(st: TaskLists, id: DocId, kind: string)
    ensures ToggleTask(ToggleTask(st, id, kind, Ok(())).lists, id, kind, Ok(())).lists == st
    ensures HasId(st.Get(SelectCategory(kind)), id) ==>
      var c := SelectCategory(kind);
      var s := st.Get(c);
      ToggleTask(ToggleTask(st, id, kind, Ok(())).lists, id, kind, Ok(())).requests ==
        [SetCompleted(CollectionName(c), id, s[FirstIndex(s, id).value].completed)]
  {
  }


  /** Adding a task and then deleting it by the key the store assigned, both
      calls succeeding, restores the lists when the key was new to the list. */
  lemma {:induction false} AddThenDelete(st: TaskLists, input: string, kind: string, id: DocId)
    requires !AllWhitespace(input)
    requires !HasId(st.Get(SelectCategory(kind)), id)
    ensures DeleteTask(AddTask(st, input, kind, Ok(id)).lists, id, kind, Ok(())).lists == st
  {
    var c := SelectCategory(kind);
    var task := Task(id, Trim(input), false, ServerTimestamp);
    var added := AddTask(st, input, kind, Ok(id)).lists;
    assert added.Get(c) == [] + [task] + st.Get(c);
    WithoutAround([], task, st.Get(c));
    assert added.Put(c, st.Get(c)) == st;
  }
}
