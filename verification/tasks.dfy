/**
 The data of the task list: task records, the documents the store keeps for
 them, the two categories and the pair of in-memory lists.
 */
module Tasks {

  /** A document key. Keys are assigned by the store and the code only ever
      passes them around and compares them with `===` / `!==`, so the model
      keeps them opaque: a type with equality and nothing else. */
  type DocId(==)

  /** The `createdAt` field. A freshly added record holds the store's
      server-timestamp sentinel; a fetched record holds whatever the store
      wrote. The model never compares timestamps: the store does the ordering. */
  datatype Timestamp = ServerTimestamp | Stored(ticks: int)

  /** The fields a task document holds in the store (everything but its key). */
  datatype Fields = Fields(text: string, completed: bool, createdAt: Timestamp)

  /** A task document as a query returns it: the store-assigned key and its fields. */
  datatype Doc = Doc(id: DocId, data: Fields)

  /** One in-memory task record: `{id, text, completed, createdAt}`. */
  datatype Task = Task(id: DocId, text: string, completed: bool, createdAt: Timestamp)
  {
    /** The stored fields of this record. */
    function Data(): Fields {
      Fields(text, completed, createdAt)
    }
  }

  /** The record a fetched document becomes: `{id: doc.id, ...doc.data()}`. */
  function FromDoc(d: Doc): (t: Task)
    ensures t.id == d.id && t.Data() == d.data
  {
    Task(d.id, d.data.text, d.data.completed, d.data.createdAt)
  }

  /** The records a query snapshot becomes, in the order the store returned them. */
  function FromDocs(docs: seq<Doc>): (ts: seq<Task>)
    ensures |ts| == |docs|
    ensures forall k | 0 <= k < |docs| :: ts[k].id == docs[k].id && ts[k].Data() == docs[k].data
  {
    seq(|docs|, k requires 0 <= k < |docs| => FromDoc(docs[k]))
  }

  /** The two task partitions. */
  datatype Category = Todo | NotTodo
  {
    function Other(): (c: Category)
      ensures c != this
    {
      match this
      case Todo => NotTodo
      case NotTodo => Todo
    }
  }

  /** The category a `type` string selects: `type === 'todo'`. Every other
      string, the renderer's `'not-todo'` included, selects NotTodo. */
  function SelectCategory(kind: string): (c: Category)
    ensures c == Todo <==> kind == "todo"
  {
    if kind == "todo" then Todo else NotTodo
  }

  /** The name of the store collection under `tasks/public` for a category. */
  function CollectionName(c: Category): (name: string)
    ensures name == "todo" <==> c == Todo
    ensures name == "notTodo" <==> c == NotTodo
  {
    match c
    case Todo => "todo"
    case NotTodo => "notTodo"
  }

  /** `app.tasks`: the two in-memory lists, each newest first. */
  datatype TaskLists = TaskLists(todo: seq<Task>, notTodo: seq<Task>)
  {
    /** The list a category names. */
    function Get(c: Category): seq<Task> {
      match c
      case Todo => todo
      case NotTodo => notTodo
    }

    /** Replaces the list a category names, and only that list. */
    function Put(c: Category, s: seq<Task>): (r: TaskLists)
      ensures r.Get(c) == s
      ensures r.Get(c.Other()) == Get(c.Other())
    {
      match c
      case Todo => this.(todo := s)
      case NotTodo => this.(notTodo := s)
    }
  }

  /** The initial state: both lists empty. */
  const Empty := TaskLists([], [])

  /** The two categories are told apart by the `type` string alone, and the
      store collection and the in-memory list the operations touch are picked
      by the same test: `'todo'` selects the `todo` collection and the `todo`
      list, any other string the `notTodo` collection and the `notTodo` list. */
  lemma SelectionIsBinary(kind: string, st: TaskLists)
    ensures SelectCategory(kind) == Todo <==> kind == "todo"
    ensures CollectionName(SelectCategory(kind)) == (if kind == "todo" then "todo" else "notTodo")
    ensures st.Get(SelectCategory(kind)) == (if kind == "todo" then st.todo else st.notTodo)
    ensures SelectCategory("not-todo") == NotTodo
  {
  }

  /** The document a record stands for: its key and its stored fields. */
  function ToDocs(ts: seq<Task>): seq<Doc> {
    seq(|ts|, k requires 0 <= k < |ts| => Doc(ts[k].id, ts[k].Data()))
  }

  /** A fetched snapshot converts to records and back without loss: the
      documents, their order and their fields all come back. */
  lemma {:induction false} SnapshotRoundTrip(docs: seq<Doc>)
    ensures ToDocs(FromDocs(docs)) == docs
  {
  }

  /** Conversion loses nothing in the other direction either: every record
      is the one its document converts to. */
  lemma {:induction false} RecordsRoundTrip(ts: seq<Task>)
    ensures FromDocs(ToDocs(ts)) == ts
  {
  }
}
