# notes_frontend: the offline-tolerant note store, in Dafny

This project models the core of a React notes client that keeps working while
the server is unreachable. The client has four layers, and each one is a
module here:

- **The durable store** (`Storage`). It is `localStorage` with three keys: the
  notes array, a meta stamp `{ updatedAt }`, and a FIFO queue of operations
  still to be sent to the server. Each key holds `Absent`, `Corrupt` (text
  that does not parse) or a typed `Value`.
- **The local repository** (`LocalNotesService`). It does read-modify-write
  CRUD over the store. Every successful mutation appends a `create`, `update`
  or `delete` operation to the queue.
- **The API repository** (`ApiNotesService`, over `Remote`). Each method tries
  the server and falls back to the cache on any failure. `list()` first
  drains the whole queue and replays it in order. On the first failure it
  stops, and the rest of the queue is lost.
- **The session** (`NotesContext`). This is the reducer, the filtered and
  sorted view, and the actions (`createNote`, `updateNote`, `deleteNote`,
  `loadNotes`, and the load on mount or on a change of service). Each action
  calls the active repository and then dispatches to the reducer.

Two small pure modules complete the core. `NotesListView` is the list's
display order and its ArrowUp/ArrowDown rule. `Env` is the configuration
rules: choice of base URL, slash stripping, health URL and flag booleans.
`NoteModel`, `Ordering` and `Text` hold the entity and the array and string
operations these share. `Ordering` is the stable newest-first sort that
`Array.prototype.sort` performs with the `b.updatedAt - a.updatedAt`
comparator.

**How the model is built.** Each stateful layer has a pure specification:
- `StoreState` for the store;
- `RemoteState` for the remote, holding the scripted replies and the log of
  requests;
- `World`, the store and the remote together;
- `SessionState` for the session.

The operations are functions from the old state to the result and the new
state, and their `ensures` clauses carry the properties. The JavaScript
objects are classes: `Store`, `RemoteApi`, `LocalNotes`, `ApiNotes` and
`Session`. Their methods are imperative: assignments, the replay's `while`
loop with a `break`, and index updates that assign a fresh sequence
`notes[idx := …]` to a local. Each method is proved to
produce exactly what its specification function gives.

**Fallbacks and missing records.** `getMeta` passes `{ updatedAt: 0 }` as
its fallback (storage.js:28), and the three queue readers pass `[]`
(storage.js:34, 42, 50). `safeParse` returns the fallback only when
`JSON.parse` throws, that is for an unparsable record. A missing key makes
`getItem` return `null`, which parses to `null`. So `getMeta()` returns
`null` for a missing meta record, and `peekOperations()` and
`dequeueOperations()` return `null` for a missing queue.
- `enqueueOperation` on a missing queue throws a TypeError. That is the state
  right after every replay, so after any `list()` of the API repository the
  local repository's mutations save the note but then throw
  (`NotesContext.LocalCreateWithoutQueue`).
- The comment in `_replayQueueIfAny` says the remaining operations are pushed
  back after a failure. Nothing pushes them back
  (`ApiNotesService.StopsAtFirstFailure`).

## Model

| member | source | states |
|---|---|---|
| NoteModel.IndexOf | notes_frontend/src/services/LocalNotesService.js:29 | `findIndex` by id: -1 exactly when no note has the id, otherwise the first position holding it |
| NoteModel.RemoveId | notes_frontend/src/services/LocalNotesService.js:40 | `filter(n => n.id !== id)`: keeps exactly the notes with another id, so none has the id; without such a note the list is unchanged |
| NoteModel.RemoveIdIsFilter | notes_frontend/src/services/LocalNotesService.js:40 | the filter decides note by note: one note is dropped exactly when it has the id, and filtering a concatenation concatenates the results, so the kept notes keep their order and multiplicity |
| Ordering.SortDescFacts | notes_frontend/src/services/LocalNotesService.js:12 | the list's sort gives a newest-first sequence, a permutation of its input, and keeps the input order of notes with equal `updatedAt` |
| Ordering.SortDescPermutes | notes_frontend/src/services/LocalNotesService.js:12 | sorting keeps the same multiset, the same length and the same members |
| Ordering.SortDescSorted | notes_frontend/src/services/LocalNotesService.js:12 | the sorted list is ordered by `updatedAt`, newest first |
| Ordering.SortDescStable | notes_frontend/src/services/LocalNotesService.js:12 | for every stamp, the notes with that stamp keep their relative order (a stable sort) |
| Ordering.SortDescOfSorted | notes_frontend/src/components/NotesList.jsx:10 | sorting a list that is already newest first leaves it unchanged |
| Ordering.SortDescIdempotent | notes_frontend/src/context/NotesContext.jsx:150 | sorting twice is sorting once |
| Ordering.PrependNewest | notes_frontend/src/services/LocalNotesService.js:19-20 | a note no older than every note of a sorted list can be put in front and the list stays sorted |
| Text.TrimSpec | notes_frontend/src/context/NotesContext.jsx:149 | `trim()`: no white space at either end remains, the result occurs in the input at a position where everything before and after it is white space, and it is empty exactly when the input is all white space |
| Text.ToLower | notes_frontend/src/context/NotesContext.jsx:149 | `toLowerCase()` on ASCII letters: same length, each character lowered |
| Text.ContainsIffOccurs | notes_frontend/src/context/NotesContext.jsx:152 | `includes(q)` holds exactly when `q` occurs at some position |
| Text.StripTrailingSlashes | notes_frontend/src/utils/env.js:27 | `replace(/\/+$/, "")`: a prefix that does not end with `/`, and only `/` characters were removed |
| Text.DropLeadingSlash | notes_frontend/src/utils/env.js:47 | `replace(/^\/?/, "")`: one leading `/` is removed when there is one, otherwise the string is unchanged |
| Storage.SafeParse | notes_frontend/src/utils/storage.js:5-7 | a missing key gives `null`, unparsable text gives the fallback, a stored value gives that value |
| Storage.StoredNotes | notes_frontend/src/utils/storage.js:10-15 | `loadNotesFromStorage()` is the stored array, and `[]` when the record is absent, unparsable or not an array |
| Storage.StoredMeta | notes_frontend/src/utils/storage.js:26-29 | `getMeta()` is `null` for a missing record, the fallback `{ updatedAt: 0 }` for an unparsable one, and the stored stamp otherwise |
| Storage.StoredQueue | notes_frontend/src/utils/storage.js:48-51 | the queue read by peek and dequeue is `null` for a missing record, `[]` for an unparsable one, and the stored entries otherwise |
| Storage.AfterSave | notes_frontend/src/utils/storage.js:18-23 | after `saveNotesToStorage(X)`, loading gives back `X`, meta is `{ updatedAt: now }`, and the queue record is untouched |
| Storage.AfterEnqueue | notes_frontend/src/utils/storage.js:32-37 | throws a TypeError exactly when the queue is missing; otherwise appends `{ ...op, ts: now }` after the old entries and leaves notes and meta alone |
| Storage.AfterDequeue | notes_frontend/src/utils/storage.js:40-45 | the queue key is removed and the other records are unchanged |
| Storage.EnqueueAllThenDequeue | notes_frontend/src/utils/storage.js:32-45 | FIFO: on an existing queue, enqueuing several operations and then dequeuing returns the old entries followed by the new ones in insertion order, and the notes and meta records are unchanged |
| Storage.AfterDequeueNothingQueues | notes_frontend/src/utils/storage.js:34-43 | after a dequeue, a second dequeue or a peek returns `null`, and an enqueue throws |
| Storage.Store.constructor | notes_frontend/src/utils/storage.js:1-3 | the store starts with the given three records |
| Storage.Store.LoadNotesFromStorage | notes_frontend/src/utils/storage.js:10-15 | returns the stored notes as `StoredNotes` gives them |
| Storage.Store.SaveNotesToStorage | notes_frontend/src/utils/storage.js:18-23 | the records become `AfterSave` of the old records |
| Storage.Store.GetMeta | notes_frontend/src/utils/storage.js:26-29 | returns `StoredMeta` of the records and changes nothing |
| Storage.Store.EnqueueOperation | notes_frontend/src/utils/storage.js:32-37 | throws exactly when `AfterEnqueue` does, leaving every record as it was; otherwise the records become `AfterEnqueue`'s |
| Storage.Store.DequeueOperations | notes_frontend/src/utils/storage.js:40-45 | returns the old queue and leaves the records as `AfterDequeue` gives them |
| Storage.Store.PeekOperations | notes_frontend/src/utils/storage.js:48-51 | returns the same queue a dequeue would and changes nothing |
| Remote.Interpret | notes_frontend/src/services/ApiNotesService.js:14-21 | `api()` throws exactly for a transport failure or a non-ok status; 204 resolves to `null`; any other ok status resolves to the body |
| Remote.RemoteApi.constructor | notes_frontend/src/services/ApiNotesService.js:8-13 | the remote starts with the given script and no request issued |
| Remote.RemoteApi.Call | notes_frontend/src/services/ApiNotesService.js:8-22 | consumes the next scripted reply, logs the request, and gives what `Interpret` gives for that reply |
| LocalNotesService.CreateSpec | notes_frontend/src/services/LocalNotesService.js:16-24 | the note has `createdAt = updatedAt = now` and falsy fields become `""`; `[note] + list()` is saved before the enqueue, so a throwing enqueue still leaves the note stored; the `create` operation is appended exactly when the queue exists |
| LocalNotesService.UpdateSpec | notes_frontend/src/services/LocalNotesService.js:27-35 | an unknown id throws "Note not found" and changes no record; otherwise the sorted list is saved with only that note replaced by `{ ...old, ...patch, updatedAt: now }`, and an `update` operation carrying the patch is appended |
| LocalNotesService.RemoveSpec | notes_frontend/src/services/LocalNotesService.js:38-43 | never reports a missing note: saves the sorted list without any note of that id, and appends a `delete` operation exactly when the queue exists |
| LocalNotesService.CreatedNoteListedFirst | notes_frontend/src/services/LocalNotesService.js:19-21 | when no stored note is newer than `now`, the created note is listed first, followed by the earlier list |
| LocalNotesService.RemovedNoteNotListed | notes_frontend/src/services/LocalNotesService.js:39-41 | after `remove(id)`, whether or not the enqueue throws, no listed note has that id |
| LocalNotesService.RemoveAbsentKeepsNotes | notes_frontend/src/services/LocalNotesService.js:39-41 | removing an id that no note has stores the same notes, newest first |
| LocalNotesService.LocalNotes.constructor | notes_frontend/src/services/LocalNotesService.js:9 | the repository works on the given store |
| LocalNotesService.LocalNotes.List | notes_frontend/src/services/LocalNotesService.js:11-13 | returns the stored notes newest first and changes nothing |
| LocalNotesService.LocalNotes.Create | notes_frontend/src/services/LocalNotesService.js:16-24 | result and records as `CreateSpec` gives them |
| LocalNotesService.LocalNotes.Update | notes_frontend/src/services/LocalNotesService.js:27-35 | result and records as `UpdateSpec` gives them |
| LocalNotesService.LocalNotes.Remove | notes_frontend/src/services/LocalNotesService.js:38-43 | outcome and records as `RemoveSpec` gives them |
| LocalNotesService.LocalNotes.SyncPending | notes_frontend/src/services/LocalNotesService.js:46-49 | returns the queue as peeked and modifies nothing |
| LocalNotesService.LocalNotes.DequeueAll | notes_frontend/src/services/LocalNotesService.js:52-54 | is exactly `dequeueOperations()`: returns the old queue and removes the key |
| ApiNotesService.Replayed | notes_frontend/src/services/ApiNotesService.js:28-55 | the queue is dequeued once and never restored; the requests sent are the known operations' requests, in queue order, up to the first failure; with no queue nothing is sent |
| ApiNotesService.ReplayIsSendUntilFailure | notes_frontend/src/services/ApiNotesService.js:31-54 | the replay loop, which skips unknown operation types, sends exactly what "send the known requests until one fails" sends |
| ApiNotesService.AllDelivered | notes_frontend/src/services/ApiNotesService.js:31-48 | when every reply succeeds, all requests are sent in order and each consumes one reply |
| ApiNotesService.StopsAtFirstFailure | notes_frontend/src/services/ApiNotesService.js:49-53 | when reply `j` is the first failure, exactly the first `j + 1` requests are sent and the later operations are dropped |
| ApiNotesService.ListSpec | notes_frontend/src/services/ApiNotesService.js:58-70 | on a successful GET the body is cached as it came (a non-array becomes `[]`) and returned newest first; on a failed GET the cache is returned newest first and its notes and meta are unchanged; either way the queue is gone, and the result is the cache's notes sorted |
| ApiNotesService.CreateSpec | notes_frontend/src/services/ApiNotesService.js:73-92 | the optimistic note is POSTed first; if that fails it is put in front of the unsorted cache and returned, and the queue is left as it was; if the POST succeeds, the remote and the queue are those `list()` leaves; a returned note is the result, and the cache is `list()`'s when the refreshed list holds its id, otherwise the note followed by the refreshed list; a reply that is not a note gives `null` and `list()`'s world when the refreshed list is empty, otherwise the optimistic note in front of the cache `list()` left |
| ApiNotesService.UpdateSpec | notes_frontend/src/services/ApiNotesService.js:95-121 | PUTs the patch with `updatedAt: now`; on success merges the reply into the cached note or leaves the cache alone; on failure applies the patch locally or throws "Note not found locally"; the queue is never touched |
| ApiNotesService.RemoveSpec | notes_frontend/src/services/ApiNotesService.js:124-134 | the note is removed from the cache whether or not the DELETE succeeds; never throws or enqueues |
| ApiNotesService.ApiNotes.constructor | notes_frontend/src/services/ApiNotesService.js:25 | the repository works on the given store and remote |
| ApiNotesService.ApiNotes.ReplayQueueIfAny | notes_frontend/src/services/ApiNotesService.js:28-55 | the loop leaves records and remote as `Replayed` gives them |
| ApiNotesService.ApiNotes.List | notes_frontend/src/services/ApiNotesService.js:58-70 | result, records and remote as `ListSpec` gives them |
| ApiNotesService.ApiNotes.Create | notes_frontend/src/services/ApiNotesService.js:73-92 | result, records and remote as `CreateSpec` gives them |
| ApiNotesService.ApiNotes.Update | notes_frontend/src/services/ApiNotesService.js:95-121 | result, records and remote as `UpdateSpec` gives them |
| ApiNotesService.ApiNotes.Remove | notes_frontend/src/services/ApiNotesService.js:124-134 | records and remote as `RemoveSpec` gives them |
| ApiNotesService.ApiNotes.SyncPending | notes_frontend/src/services/ApiNotesService.js:137-139 | is the replay |
| NotesListView.DisplayOrder | notes_frontend/src/components/NotesList.jsx:10 | the displayed list is the notes newest first, a permutation of them |
| NotesListView.ActiveIndex | notes_frontend/src/components/NotesList.jsx:19 | -1 exactly when nothing is selected or the selected id is not listed, else a position holding it |
| NotesListView.ArrowTarget | notes_frontend/src/components/NotesList.jsx:20-27 | ArrowDown moves to the next note and stays on the last; ArrowUp moves to the previous note and stays on the first; with no listed selection both move to the first note; an empty list gives nothing; the target is always a listed note's id |
| NotesListView.OnKeyDown | notes_frontend/src/components/NotesList.jsx:18-34 | the arrows select their target in the displayed order and prevent the default; Ctrl/Meta+K focuses the search; no other key selects anything; every selected id belongs to a note of the state |
| NotesListView.DownThenUp | notes_frontend/src/components/NotesList.jsx:20-27 | with distinct ids and a selection above the last note, ArrowDown and then ArrowUp return to the selected note |
| Env.Trimmed | notes_frontend/src/utils/env.js:21-22 | `v?.trim()` is truthy exactly when the variable is set and not all white space |
| Env.BaseCandidate | notes_frontend/src/utils/env.js:20-23 | `API_BASE` trimmed when it is not blank, else `BACKEND_URL` trimmed when that is not blank, else empty |
| Env.BackendBaseUrl | notes_frontend/src/utils/env.js:18-31 | `null` for a blank base or when normalisation throws; otherwise the normalised URL without its trailing slashes, so it never ends with `/` |
| Env.BackendEnabled | notes_frontend/src/utils/env.js:34-40 | true exactly when the base URL is present and non-empty |
| Env.FlagsIrrelevant | notes_frontend/src/utils/env.js:36-39 | `FEATURE_FLAGS` cannot change `backendEnabled()` |
| Env.HealthcheckPath | notes_frontend/src/utils/env.js:12 | the health path variable when it is set and non-empty, and `/health` otherwise |
| Env.JoinPath | notes_frontend/src/utils/env.js:47-48 | the URL is the base, one `/`, and the path with its leading `/` removed when it has one, or the whole path when it has none |
| Env.HealthcheckUrl | notes_frontend/src/utils/env.js:43-49 | `null` exactly when there is no base; otherwise the base joined with the health path |
| Env.DefaultHealthcheckUrl | notes_frontend/src/utils/env.js:43-49 | with the variable unset, the health URL is the base followed by `/health` |
| Env.TelemetryDisabled | notes_frontend/src/utils/env.js:52-55 | false exactly when the variable is the string `"0"`; unset or empty reads as disabled |
| NotesContext.InitialState | notes_frontend/src/context/NotesContext.jsx:7-14 | nothing loaded or selected, an empty filter, and the API service exactly when the backend is enabled |
| NotesContext.Reduce | notes_frontend/src/context/NotesContext.jsx:16-33 | each action type replaces its own field and no other; an unknown type returns the state unchanged |
| NotesContext.ReduceIdempotent | notes_frontend/src/context/NotesContext.jsx:16-33 | dispatching an action twice equals dispatching it once |
| NotesContext.MatchingFacts | notes_frontend/src/context/NotesContext.jsx:152 | `filter` keeps exactly the notes whose lowercased title or content contains the query, with no duplicates added, and a sorted list stays sorted |
| NotesContext.MatchingIsFilter | notes_frontend/src/context/NotesContext.jsx:152 | the filter decides note by note: one note is kept exactly when it matches, and filtering a concatenation concatenates the results, so the kept notes keep their order and multiplicity |
| NotesContext.FilteredNotes | notes_frontend/src/context/NotesContext.jsx:148-153 | with a blank query, all notes newest first; otherwise the newest-first notes that match, in that order; always sorted, and its members are exactly the matching notes |
| NotesContext.FilterIgnoresCase | notes_frontend/src/context/NotesContext.jsx:149 | lowercasing the filter first does not change the view |
| NotesContext.Exposed | notes_frontend/src/context/NotesContext.jsx:157 | the exposed state is the state with only `notes` replaced, by exactly `filteredNotes` (all of the notes, newest first, for a blank query) |
| NotesContext.DisplayOfExposed | notes_frontend/src/components/NotesList.jsx:10 | the list component's own sort leaves the exposed notes unchanged |
| NotesContext.RepoList | notes_frontend/src/context/NotesContext.jsx:49-52 | the active repository's `list()` is newest first and holds the notes the cache holds afterwards; the local one changes nothing |
| NotesContext.RepoCreate | notes_frontend/src/context/NotesContext.jsx:94 | only the local repository's `create` throws, and it does not touch the remote |
| NotesContext.RepoUpdate | notes_frontend/src/context/NotesContext.jsx:108 | `update` throws "Note not found locally" (API), or "Note not found" / a TypeError (local) |
| NotesContext.RepoRemove | notes_frontend/src/context/NotesContext.jsx:121 | only the local `remove` throws; either way the cache no longer holds the id |
| NotesContext.MountSpec | notes_frontend/src/context/NotesContext.jsx:54-69 | the loaded list is stored and loading ends; the first note is selected only when nothing was selected |
| NotesContext.LoadNotesSpec | notes_frontend/src/context/NotesContext.jsx:74-86 | returns and stores the list, and loading ends; only `notes` and `loading` change |
| NotesContext.CreateNoteSpec | notes_frontend/src/context/NotesContext.jsx:92-104 | a thrown create sets only `error`; otherwise the refreshed list is stored and the created note selected; a `null` result stores the list and then sets a TypeError |
| NotesContext.UpdateNoteSpec | notes_frontend/src/context/NotesContext.jsx:106-117 | on success only `notes` changes, to the refreshed list, and the selection stays; on failure only `error` changes |
| NotesContext.FirstId | notes_frontend/src/context/NotesContext.jsx:124 | `notes[0]?.id`, or `null` when it is falsy: the first note's id when there is one and it is not empty |
| NotesContext.DeleteNoteSpec | notes_frontend/src/context/NotesContext.jsx:119-131 | on success the refreshed list is stored and its first note selected whatever was selected before; on failure only `error` changes |
| NotesContext.SwitchSpec | notes_frontend/src/context/NotesContext.jsx:137-143 | the service type is set and the load effect runs only when the type actually changed |
| NotesContext.LocalCreateSelectsNewNote | notes_frontend/src/context/NotesContext.jsx:92-99 | locally, with a queue present: the created note is returned, listed and selected, its `create` operation queued, no error set and no request sent |
| NotesContext.LocalCreateWithoutQueue | notes_frontend/src/context/NotesContext.jsx:92-104 | locally, with the queue missing: `createNote` reports a TypeError and keeps the old state, though the note has been persisted |
| NotesContext.LocalUpdateMissing | notes_frontend/src/context/NotesContext.jsx:106-117 | locally, updating an unknown id sets "Note not found" and changes nothing else |
| NotesContext.LocalDeleteUnlists | notes_frontend/src/context/NotesContext.jsx:119-126 | locally, with a queue present: after `deleteNote` no listed note has the id and the first listed note is selected |
| NotesContext.ApiDeleteNeverFails | notes_frontend/src/context/NotesContext.jsx:119-131 | with the API repository `deleteNote` never sets an error and always selects the first listed note |
| NotesContext.Session.constructor | notes_frontend/src/context/NotesContext.jsx:46-52 | the provider starts in `initialState`, with both repositories over one store |
| NotesContext.Session.Dispatch | notes_frontend/src/context/NotesContext.jsx:48 | `dispatch(a)` sets the state to `reducer(state, a)` |
| NotesContext.Session.ListRepo | notes_frontend/src/context/NotesContext.jsx:49-52 | calls the repository the service type selects, as `RepoList` gives |
| NotesContext.Session.CreateInRepo | notes_frontend/src/context/NotesContext.jsx:94 | as `RepoCreate` gives |
| NotesContext.Session.UpdateInRepo | notes_frontend/src/context/NotesContext.jsx:108 | as `RepoUpdate` gives |
| NotesContext.Session.RemoveInRepo | notes_frontend/src/context/NotesContext.jsx:121 | as `RepoRemove` gives |
| NotesContext.Session.Mount | notes_frontend/src/context/NotesContext.jsx:54-69 | state, records and remote as `MountSpec` gives them |
| NotesContext.Session.LoadNotes | notes_frontend/src/context/NotesContext.jsx:74-86 | as `LoadNotesSpec` gives |
| NotesContext.Session.SelectNote | notes_frontend/src/context/NotesContext.jsx:88-90 | dispatches `SELECT` |
| NotesContext.Session.CreateNote | notes_frontend/src/context/NotesContext.jsx:92-104 | as `CreateNoteSpec` gives |
| NotesContext.Session.UpdateNote | notes_frontend/src/context/NotesContext.jsx:106-117 | as `UpdateNoteSpec` gives |
| NotesContext.Session.DeleteNote | notes_frontend/src/context/NotesContext.jsx:119-131 | as `DeleteNoteSpec` gives |
| NotesContext.Session.SetFilterText | notes_frontend/src/context/NotesContext.jsx:133-135 | dispatches `SET_FILTER` |
| NotesContext.Session.Switch | notes_frontend/src/context/NotesContext.jsx:137-143 | as `SwitchSpec` gives |
| NotesContext.Session.UseApi | notes_frontend/src/context/NotesContext.jsx:141-143 | switches to the API service |
| NotesContext.Session.UseLocal | notes_frontend/src/context/NotesContext.jsx:137-139 | switches to the local service |

## Left out

- The HTTP transport of `api()` (`fetch`, headers, `res.text()`, `res.json()`) is replaced by the scripted remote. The server is not part of this model: the client's behaviour depends only on the replies, so there is no server-side note store, and a request's effect on the server is not modelled.
- JSON and `localStorage` themselves are left out. Encoding is the identity on typed records, and unparsable text is the `Corrupt` record. A queue record holding JSON that is not an array is not modelled.
- `Date.now()`, `Math.random()` and `uid()` are parameters (`now`, `id`). Each operation reads the clock once, so every `Date.now()` within it gives the same value.
- `new URL(base, window.location.href)` is the function parameter `normalize`, which gives `None` where it throws. `process.env` is the `EnvVars` value.
- `Text.ToLower`: lowercases ASCII letters only, because Unicode case mapping is not modelled.
- Toasts are notifications with no effect on state, so they are left out. Error messages are the `Error` values the services throw, not their text.
- React's scheduling is left out: `useReducer`, `useMemo`, `useEffect`, re-renders, interleaved async actions, and responses that arrive after a change of service. Each action runs to completion before the next one starts. The mount effect reads the current selection, not the one from the render that scheduled it.
- `list()` of either repository never throws in this model, so the `catch` branches of `loadNotes` and of the mount effect are not reached.
- `ApiNotesService.CreateSpec`: a POST reply that is not a note is treated like `null`. When the refreshed list is empty, the source caches `[null]` and returns `null`; the model returns `None` and leaves the cache as the list left it, because a note sequence cannot hold `null`.
- `ApiNotesService.MergeReply`: a PUT reply that is a note replaces all its fields; any other reply leaves the cached note unchanged. A reply holding only some note fields is not modelled.
- `NoteModel.Patch`: a patch carries only `title` and `content`, the only fields the editor sends. Any other fields a caller might spread into a note are not modelled.
- The list's sort is modelled as a function returning a new sequence. The copy that `slice()` makes and the in-place `sort()` are not distinguished.
- The `notes[idx] = …` writes of `update` are modelled as a fresh sequence `notes[idx := …]` assigned to a local. The loaded array is never shared, so aliasing is not modelled.
- debounce.js, Toast.jsx, Header.jsx, Sidebar.jsx, NoteEditor.jsx, App.js and HealthService.js are not part of this model. They concern timers, rendering and polling.
