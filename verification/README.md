# Task list state machine

A Dafny model of the in-memory task-list logic of a small to-do page backed by
a Firestore document store (`script.js`, the `app` object). The page keeps two
ordered lists of task records, `tasks.todo` and `tasks.notTodo`, and changes
them through four asynchronous operations:

- `loadTasks` fetches both collections (`tasks/public/todo` and
  `tasks/public/notTodo`, newest `createdAt` first) and replaces both lists;
- `addTask` trims the input, ignores it when nothing is left, writes a new
  `{text, completed: false, createdAt}` document and puts the record, with the
  key the store assigned, at the front of the selected list;
- `deleteTask` deletes the document and filters every record with that key
  out of the selected list;
- `toggleTask` finds the first record with the key, writes the negated
  `completed` flag and sets it on that record.

A `type` string picks the list: `'todo'` selects the todo list and collection,
any other string (the renderer passes `'not-todo'`) the notTodo ones.

Every store call is awaited before the lists are touched and every failure is
caught inside the operation. The model therefore turns each operation into a
pure transition. The transition takes the two lists and the outcome of the
store call: `Ok(value)` or `Err(message)`. It returns the new lists and the
store requests the operation issued.

Modules:

- `Text` (`text.dfy`): `String.prototype.trim` over ECMAScript whitespace and line terminators.
- `Outcomes` (`outcomes.dfy`): the lookup result `Lookup` and the store-call `Outcome`.
- `Tasks` (`tasks.dfy`): task records, documents, categories, the pair of lists.
- `Records` (`records.dfy`): the filter by key, the find by key, the flip of `completed`.
- `App` (`app.dfy`): the four operations.
- `Session` (`session.dfy`): sequences of operations, the invariant they keep, and an example session.

Document keys are an opaque type that only has equality. The four operations never
look inside a key. It only passes keys around and compares them with `===` and `!==`.

Deleting removes every record with the key; with unique keys this is exactly one record (`Records.WithoutUniqueRemovesOne`). Toggling an unknown key throws a `TypeError` at `script.js` line 136 inside the `try`, and it is caught before any store call, so nothing changes.

## Model

| member | source | states |
|---|---|---|
| Text.IsWhitespace | script.js:64 | the characters `trim` strips: the ECMAScript WhiteSpace and LineTerminator sets |
| Text.AsciiWhitespace | script.js:64 | within ASCII, `trim` strips exactly tab, line feed, vertical tab, form feed, carriage return and space |
| Text.Trim | script.js:64 | the trimmed input is empty or starts and ends with a non-whitespace character; it is empty exactly when the input is all whitespace; the input is the result with a whitespace run on each side |
| Text.TrimOfPadded | script.js:64 | trim is fully determined: a trimmed string surrounded by whitespace runs trims to itself |
| Text.TrimIdempotent | script.js:64 | trimming an already trimmed input changes nothing |
| Text.SkipLeading | script.js:64 | the leading scan stops at the first non-whitespace character, after a run of whitespace only |
| Text.SkipTrailing | script.js:64 | the trailing scan stops after the last non-whitespace character, with only whitespace behind it |
| Tasks.FromDocs | script.js:41-49 | a fetched snapshot becomes one record per document, in the store's order, each with the document's key and fields |
| Tasks.FromDoc | script.js:41-44 | a fetched document becomes a record with the document's key and exactly its stored fields |
| Tasks.SnapshotRoundTrip | script.js:41-49 | converting a snapshot to records loses nothing: turning the records back into documents gives the same documents in the same order |
| Tasks.RecordsRoundTrip | script.js:41-49 | every list of records is the conversion of its own documents, so conversion is a bijection between snapshots and lists |
| Tasks.SelectCategory | script.js:77 | `type` selects the todo category exactly when it is the string `'todo'`; the same test is made at lines 82, 108, 112 and 134 |
| Tasks.CollectionName | script.js:77 | the todo category is stored in the `todo` collection and only it; the notTodo category in the `notTodo` collection and only it |
| Tasks.SelectionIsBinary | script.js:75-86 | `'todo'` and only `'todo'` selects Todo, `'not-todo'` selects NotTodo, and the collection name and the in-memory list are chosen by the same test |
| App.LoadTasks | script.js:27-57 | the requests are exactly the todo query, followed by the notTodo query only when the todo fetch resolved; if either fetch fails, both lists stay as they were; if both succeed, each list equals its snapshot record for record |
| App.AddTask | script.js:61-101 | whitespace-only input makes no store call and changes nothing; otherwise exactly one create goes to the selected collection with the trimmed text, `completed = false` and a server timestamp; on success the new record heads the selected list, the old contents follow in order and the other list is unchanged; on failure nothing changes |
| App.DeleteTask | script.js:104-129 | one delete request always goes to the selected collection; on failure nothing changes; on success the selected list is the filter of the old one by the key, so the kept records keep their order and multiplicity, and the other list is unchanged; the selected list never grows; every kept record came from the list and has a different key; every record with a different key is kept; the lists are unchanged exactly when no record had the key |
| App.ToggleTask | script.js:132-160 | a key absent from the selected list makes no store call and changes nothing; otherwise one update carries the negated flag of the first record with the key; on success only that record's `completed` changes; on failure nothing changes |
| App.ToggleTwice | script.js:132-146 | two successful toggles of the same key restore both lists, and when the key is present the second toggle writes the original flag back to the store |
| App.AddThenDelete | script.js:79-116 | adding a task and deleting it by its new key, both succeeding, restores both lists |
| Records.Without | script.js:113 | the filtered list is no longer than the original and no record in it carries the deleted key |
| Records.WithoutAbsent | script.js:113 | filtering a key no record carries leaves the list exactly as it was |
| Records.WithoutShrinks | script.js:113 | filtering a key some record carries makes the list strictly shorter |
| Records.WithoutUnchangedIff | script.js:113 | the filter returns the list unchanged exactly when no record carries the key |
| Records.WithoutKeepsOthers | script.js:113 | the filter keeps exactly the records whose key differs: nothing new appears and nothing else is lost |
| Records.WithoutConcat | script.js:113 | the filter works record by record, so it keeps the relative order of what it keeps |
| Records.WithoutAround | script.js:113 | filtering the key of one record that no other record carries removes exactly that record |
| Records.WithoutUniqueRemovesOne | script.js:113 | with unique keys, deleting the key of the record at position k leaves the records before and after it, in order |
| Records.WithoutKeepsUnique | script.js:113 | filtering keeps keys unique |
| Records.PrependKeepsUnique | script.js:83 | prepending a record with a new key keeps keys unique |
| Records.FirstIndex | script.js:135 | the lookup returns nothing exactly when no record has the key; otherwise it returns a position holding the key with no earlier match |
| Records.FirstIndexIsFirst | script.js:135 | the first position holding the key is the one the lookup returns |
| Records.FirstIndexFollowsIds | script.js:135 | where the lookup lands depends on the keys alone |
| Records.Flip | script.js:146 | the flip negates `completed` at one position and changes nothing else |
| Records.FlipKeepsFirstIndex | script.js:135-146 | after a flip the lookup finds the same record again |
| Records.FlipTwice | script.js:146 | flipping twice restores the list |
| Records.FlipKeepsUnique | script.js:146 | flipping keeps keys unique |
| Session.RejectedChangesNothing | script.js:27-160 | an operation whose awaited store call was rejected leaves both lists exactly as they were |
| Session.SilentChangesNothing | script.js:61-160 | an operation that made no store call changed nothing, and only an add or a toggle can end that way |
| Session.WithoutKeepsWellFormed | script.js:112-116 | a delete keeps a well-formed list well-formed |
| Session.PrependKeepsWellFormed | script.js:82-86 | a successful add with a fresh key keeps a well-formed list well-formed |
| Session.LoadKeepsWellFormed | script.js:27-49 | a load keeps the lists well-formed when the fetched collections are well-formed |
| Session.AddKeepsWellFormed | script.js:61-86 | an add keeps the lists well-formed when the store's new key is not already in the selected list |
| Session.DeleteKeepsWellFormed | script.js:104-116 | a delete keeps the lists well-formed, whatever the key and the outcome |
| Session.ToggleKeepsWellFormed | script.js:132-146 | a toggle keeps the lists well-formed, whatever the key and the outcome |
| Session.ApplyKeepsWellFormed | script.js:27-160 | with a store that returns well-formed collections and fresh keys, every operation keeps unique keys and trimmed, non-empty texts in both lists |
| Session.RunKeepsWellFormed | script.js:27-160 | the same holds for any sequence of operations |
| Session.BuyMilkScenario | script.js:61-146 | in an example session, adding "Buy milk" to todo gives the one record; toggling completes it, toggling again reopens it, and deleting empties the list |
| Session.BlankAndRejectedAddScenario | script.js:64-99 | a blank add to not-todo is ignored without a store call, and a rejected add changes nothing |

## Left out

- The store itself (collection and document references, `orderBy`, `add`, `update`, `delete`, `get`, `serverTimestamp`). Each call is an outcome parameter. The model never compares `createdAt` values: the order of a loaded list is the order the query returned.
- App.LoadTasks: does not state that the fetched lists are newest first, because that ordering is the store's promise, not this code's.
- `analytics.logEvent` and `console.error`. These are fire-and-forget side effects with no bearing on the lists.
- `renderTasks`, `createTaskElement`, `setupEventListeners`, `init`, `window.onload` and clearing the input field. These are DOM work.
- The `try` blocks also cover the logging and rendering that follow each mutation. If one of those threw after the mutation, the mutation would stay. The model treats them as not throwing.
- Concurrency. Overlapping operations whose store calls resolve out of order are not modelled. Each operation is one atomic transition that runs to completion before the next starts.
- Document contents other than `text`, `completed` and `createdAt`. A fetched document is assumed to hold these three fields with these types. `{id: doc.id, ...doc.data()}` would let a stored `id` field override the key, but this code never writes one.
- Keys are opaque. Their string form only matters to the DOM, through the `onclick` attributes, and that is left out.
