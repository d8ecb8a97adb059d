/**
 A session of the task-list page: a sequence of operations, each with the
 outcome its store call had, applied one after another from the empty lists.
 Each operation runs to completion before the next starts.
 */
module Session {
  import opened Outcomes
  import opened Text
  import opened Tasks
  import opened Records
  import opened App

  /** One operation together with the outcome of the store call(s) it awaits. */
  datatype Op =
    | Load(todoFetch: Outcome<seq<Doc>>, notTodoFetch: Outcome<seq<Doc>>)
    | Add(input: string, kind: string, created: Outcome<DocId>)
    | Delete(id: DocId, kind: string, removed: Outcome<()>)
    | Toggle(id: DocId, kind: string, updated: Outcome<()>)

  function Apply(st: TaskLists, op: Op): Step {
    match op
    case Load(a, b) => LoadTasks(st, a, b)
    case Add(input, kind, o) => AddTask(st, input, kind, o)
    case Delete(id, kind, o) => DeleteTask(st, id, kind, o)
    case Toggle(id, kind, o) => ToggleTask(st, id, kind, o)
  }

  /** The store rejected a call the operation awaited. */
  predicate Rejected(op: Op) {
    match op
    case Load(a, b) => a.Err? || b.Err?
    case Add(_, _, o) => o.Err?
    case Delete(_, _, o) => o.Err?
    case Toggle(_, _, o) => o.Err?
  }

  /** Every operation is all-or-nothing: when a store call it awaited was
      rejected, both lists are exactly as they were. */
  lemma {:induction false} RejectedChangesNothing(st: TaskLists, op: Op)
    requires Rejected(op)
    ensures Apply(st, op).lists == st
  {
  }

  /** An operation that made no store call changed nothing: the empty-input
      add and the toggle of an unknown id are the only ways to get there. */
  lemma {:induction false} SilentChangesNothing(st: TaskLists, op: Op)
    requires Apply(st, op).requests == []
    ensures Apply(st, op).lists == st
    ensures op.Add? || op.Toggle?
  {
  }

  /** The lists after running `ops` in order from `st`. */
  function Run(st: TaskLists, ops: seq<Op>): TaskLists
    decreases |ops|
  {
    if ops == [] then st else Run(Apply(st, ops[0]).lists, ops[1..])
  }

  /** A list the page itself could have built: unique keys, and every text
      non-empty with no surrounding whitespace. */
  predicate WellFormedList(s: seq<Task>) {
    && UniqueIds(s)
    && forall k | 0 <= k < |s| :: s[k].text != [] && IsTrimmed(s[k].text)
  }

  predicate WellFormed(st: TaskLists) {
    WellFormedList(st.todo) && WellFormedList(st.notTodo)
  }

  /** What the well-formedness of the lists relies on from the store: fetched
      collections are themselves well-formed, and a key the store assigns to a
      new document is not already in the list it joins. */
  predicate StoreBehaves(st: TaskLists, op: Op) {
    match op
    case Load(a, b) =>
      a.Ok? && b.Ok? ==> WellFormedList(FromDocs(a.value)) && WellFormedList(FromDocs(b.value))
    case Add(input, kind, o) =>
      o.Ok? ==> !HasId(st.Get(SelectCategory(kind)), o.value)
    case Delete(_, _, _) => true
    case Toggle(_, _, _) => true
  }

  /** The store behaves at every step of running `ops` from `st`. */
  predicate StoreBehavesThroughout(st: TaskLists, ops: seq<Op>)
    decreases |ops|
  {
    ops == [] || (StoreBehaves(st, ops[0]) && StoreBehavesThroughout(Apply(st, ops[0]).lists, ops[1..]))
  }

  /** Filtering a well-formed list by key leaves it well-formed. */
  lemma {:induction false} WithoutKeepsWellFormed(s: seq<Task>, id: DocId)
    requires WellFormedList(s)
    ensures WellFormedList(Without(s, id))
  {
    WithoutKeepsUnique(s, id);
    WithoutKeepsOthers(s, id);
    var r := Without(s, id);
    forall k | 0 <= k < |r| ensures r[k].text != [] && IsTrimmed(r[k].text) {
      assert r[k] in s;
    }
  }

  /** A trimmed, non-empty record under a new key can join a well-formed list. */
  lemma {:induction false} PrependKeepsWellFormed(t: Task, s: seq<Task>)
    requires WellFormedList(s)
    requires t.text != [] && IsTrimmed(t.text)
    requires !HasId(s, t.id)
    ensures WellFormedList([t] + s)
  {
  }

  /** A load that succeeded installs what the store returned; a failed one
      changes nothing. */
  lemma {:induction false} LoadKeepsWellFormed(st: TaskLists, a: Outcome<seq<Doc>>, b: Outcome<seq<Doc>>)
    requires WellFormed(st)
    requires a.Ok? && b.Ok? ==> WellFormedList(FromDocs(a.value)) && WellFormedList(FromDocs(b.value))
    ensures WellFormed(LoadTasks(st, a, b).lists)
  {
  }

  /** An add puts a trimmed, non-empty text under a key new to the list. */
  lemma {:induction false} AddKeepsWellFormed(st: TaskLists, input: string, kind: string, o: Outcome<DocId>)
    requires WellFormed(st)
    requires o.Ok? ==> !HasId(st.Get(SelectCategory(kind)), o.value)
    ensures WellFormed(AddTask(st, input, kind, o).lists)
  {
  }

  /** A delete only drops records, so what is left is still well-formed. */
  lemma {:induction false} DeleteKeepsWellFormed(st: TaskLists, id: DocId, kind: string, o: Outcome<()>)
    requires WellFormed(st)
    ensures WellFormed(DeleteTask(st, id, kind, o).lists)
  {
    WithoutKeepsWellFormed(st.Get(SelectCategory(kind)), id);
  }

  /** A toggle changes one `completed` flag and no key or text. */
  lemma {:induction false} ToggleKeepsWellFormed(st: TaskLists, id: DocId, kind: string, o: Outcome<()>)
    requires WellFormed(st)
    ensures WellFormed(ToggleTask(st, id, kind, o).lists)
  {
  }

  /** Each operation keeps the lists well-formed, given a well-behaved store. */
  lemma {:induction false} ApplyKeepsWellFormed(st: TaskLists, op: Op)
    requires WellFormed(st)
    requires StoreBehaves(st, op)
    ensures WellFormed(Apply(st, op).lists)
  {
    match op
    case Load(a, b) => LoadKeepsWellFormed(st, a, b);
    case Add(input, kind, o) => AddKeepsWellFormed(st, input, kind, o);
    case Delete(id, kind, o) => DeleteKeepsWellFormed(st, id, kind, o);
    case Toggle(id, kind, o) => ToggleKeepsWellFormed(st, id, kind, o);
  }

  /** A whole session keeps the lists well-formed, given a well-behaved store. */
  lemma {:induction false} RunKeepsWellFormed(st: TaskLists, ops: seq<Op>)
    requires WellFormed(st)
    requires StoreBehavesThroughout(st, ops)
    ensures WellFormed(Run(st, ops))
    decreases |ops|
  {
    if ops != [] {
      ApplyKeepsWellFormed(st, ops[0]);
      RunKeepsWellFormed(Apply(st, ops[0]).lists, ops[1..]);
    }
  }

  /** An example session, for whatever key `m` the store assigns:
      adding "Buy milk" to todo yields the one record; toggling it twice
      completes and reopens it; deleting it empties the list again. */
  lemma {:induction false} BuyMilkScenario(m: DocId)
    ensures AddTask(Empty, "Buy milk", "todo", Ok(m)).lists ==
            TaskLists([Task(m, "Buy milk", false, ServerTimestamp)], [])
    ensures ToggleTask(TaskLists([Task(m, "Buy milk", false, ServerTimestamp)], []), m, "todo", Ok(())).lists ==
            TaskLists([Task(m, "Buy milk", true, ServerTimestamp)], [])
    ensures ToggleTask(TaskLists([Task(m, "Buy milk", true, ServerTimestamp)], []), m, "todo", Ok(())).lists ==
            TaskLists([Task(m, "Buy milk", false, ServerTimestamp)], [])
    ensures DeleteTask(TaskLists([Task(m, "Buy milk", false, ServerTimestamp)], []), m, "todo", Ok(())).lists == Empty
  {
    var milk := "Buy milk";
    assert milk[0..0 + |milk|] == milk;
    assert !IsWhitespace(milk[0]) && !IsWhitespace(milk[|milk| - 1]);
    TrimOfPadded(milk, 0, milk);
    assert [Task(m, milk, false, ServerTimestamp)][0].id == m;
    assert [Task(m, milk, true, ServerTimestamp)][0].id == m;
  }

  /** Blank input and a rejected write both leave the lists alone. */
  lemma {:induction false} BlankAndRejectedAddScenario(st: TaskLists, o: Outcome<DocId>, message: string)
    ensures AddTask(st, "   ", "not-todo", o) == Step(st, [])
    ensures AddTask(st, "Buy milk", "todo", Err(message)).lists == st
  {
  }

}
