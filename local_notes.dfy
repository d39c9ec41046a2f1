/**
 * LocalNotesService.js: read-modify-write CRUD over the store, where every
 * successful mutation also enqueues a pending operation. The functions below
 * give each method's result and the records afterwards; the class's methods
 * are proved to follow them. `uid()` and `Date.now()` are parameters.
 */
module LocalNotesService {
  import opened Wrappers
  import opened NoteModel
  import opened Ordering
  import opened Storage

  /** `list()`: the stored notes, newest first. */
  function Listed(s: StoreState): seq<Note> {
    SortDesc(StoredNotes(s))
  }

  /** The note `create({ title, content })` builds: both timestamps `now`, a
      falsy title or content becomes "". */
  function NewNote(id: string, title: Option<string>, content: Option<string>, now: int): Note {
    Note(id, OrEmpty(title), OrEmpty(content), now, now)
  }

  /** `create`: stores `[note] + list()` (saving first), then enqueues a
      `create` operation; on a missing queue the enqueue throws, but the note
      is already persisted. */
  function CreateSpec(s: StoreState, id: string, title: Option<string>, content: Option<string>, now: int)
    : (r: (Result<Note, Error>, StoreState))
    ensures var note := NewNote(id, title, content, now);
      && note.createdAt == now && note.updatedAt == now
      && note.title == OrEmpty(title) && note.content == OrEmpty(content)
      && StoredNotes(r.1) == [note] + Listed(s)
      && StoredMeta(r.1) == Some(now)
      && (r.0.Ok? <==> !s.queue.Absent?)
      && (r.0.Ok? ==> r.0.value == note
                      && StoredQueue(r.1) == Some(StoredQueue(s).value + [QueuedOp(CreateOp(note), now)]))
      && (r.0.Err? ==> r.0.error == TypeError && r.1.queue == s.queue)
  {
    var note := NewNote(id, title, content, now);
    var saved := AfterSave(s, [note] + Listed(s), now);
    match AfterEnqueue(saved, CreateOp(note), now)
    case Ok(s2) => (Ok(note), s2)
    case Err(e) => (Err(e), saved)
  }

  /** The note `update` writes: `{ ...old, ...patch, updatedAt: now }`. */
  function Updated(n: Note, patch: Patch, now: int): Note {
    Merge(n, patch).(updatedAt := now)
  }

  /** `update(id, patch)`: an unknown id throws "Note not found" and writes
      nothing; otherwise the sorted list is stored with that note merged, and an
      `update` operation carrying the patch (not the merged note) is enqueued. */
  function UpdateSpec(s: StoreState, id: string, patch: Patch, now: int): (r: (Result<Note, Error>, StoreState))
    ensures !HasId(StoredNotes(s), id) ==> r == (Err(NoteNotFound), s)
    ensures HasId(StoredNotes(s), id) ==>
      var list := Listed(s);
      var k := IndexOf(list, id);
      && 0 <= k < |list|
      && StoredNotes(r.1) == list[k := Updated(list[k], patch, now)]
      && StoredMeta(r.1) == Some(now)
      && (r.0.Ok? <==> !s.queue.Absent?)
      && (r.0.Ok? ==> r.0.value == Updated(list[k], patch, now)
                      && StoredQueue(r.1) == Some(StoredQueue(s).value + [QueuedOp(UpdateOp(id, patch), now)]))
      && (r.0.Err? ==> r.0.error == TypeError && r.1.queue == s.queue)
  {
    var list := Listed(s);
    SortDescPermutes(StoredNotes(s));
    HasIdPermuted(StoredNotes(s), list, id);
    var k := IndexOf(list, id);
    if k == -1 then (Err(NoteNotFound), s)
    else
      var n := Updated(list[k], patch, now);
      var saved := AfterSave(s, list[k := n], now);
      match AfterEnqueue(saved, UpdateOp(id, patch), now)
      case Ok(s2) => (Ok(n), s2)
      case Err(e) => (Err(e), saved)
  }

  /** `remove(id)` never reports a missing note: it stores the sorted list
      without any note `id` and enqueues a `delete` operation (which throws
      only on a missing queue, after the save). */
  function RemoveSpec(s: StoreState, id: string, now: int): (r: (Outcome<Error>, StoreState))
    ensures StoredNotes(r.1) == RemoveId(Listed(s), id)
    ensures !HasId(StoredNotes(r.1), id)
    ensures forall n :: n in StoredNotes(r.1) <==> n in StoredNotes(s) && n.id != id
    ensures StoredMeta(r.1) == Some(now)
    ensures r.0.Pass? <==> !s.queue.Absent?
    ensures r.0.Pass? ==> StoredQueue(r.1) == Some(StoredQueue(s).value + [QueuedOp(DeleteOp(id), now)])
    ensures r.0.Fail? ==> r.0.error == TypeError && r.1.queue == s.queue
  {
    SortDescPermutes(StoredNotes(s));
    var saved := AfterSave(s, RemoveId(Listed(s), id), now);
    match AfterEnqueue(saved, DeleteOp(id), now)
    case Ok(s2) => (Pass, s2)
    case Err(e) => (Fail(e), saved)
  }

  /** Two sequences holding the same notes hold the same identifiers. */
  lemma HasIdPermuted(a: seq<Note>, b: seq<Note>, id: string)
    requires forall n :: n in a <==> n in b
    ensures HasId(a, id) <==> HasId(b, id)
  {
    if HasId(a, id) {
      var i :| 0 <= i < |a| && a[i].id == id;
      assert a[i] in b;
    }
    if HasId(b, id) {
      var i :| 0 <= i < |b| && b[i].id == id;
      assert b[i] in a;
    }
  }

  /** A note created no earlier than every stored note is the first one listed afterwards. */
  lemma CreatedNoteListedFirst(s: StoreState, id: string, title: Option<string>, content: Option<string>, now: int)
    requires forall n :: n in StoredNotes(s) ==> n.updatedAt <= now
    ensures var note := NewNote(id, title, content, now);
      Listed(CreateSpec(s, id, title, content, now).1) == [note] + Listed(s)
  {
    var note := NewNote(id, title, content, now);
    SortDescPermutes(StoredNotes(s));
    SortDescSorted(StoredNotes(s));
    PrependNewest(note, Listed(s));
  }

  /** After `remove(id)` no listed note has that id, whatever the outcome of the enqueue. */
  lemma RemovedNoteNotListed(s: StoreState, id: string, now: int)
    ensures !HasId(Listed(RemoveSpec(s, id, now).1), id)
  {
    var stored := StoredNotes(RemoveSpec(s, id, now).1);
    SortDescPermutes(stored);
    HasIdPermuted(stored, SortDesc(stored), id);
  }

  /** Removing an id no stored note has changes no note: the notes record
      becomes the same notes, newest first. */
  lemma RemoveAbsentKeepsNotes(s: StoreState, id: string, now: int)
    requires !HasId(StoredNotes(s), id)
    ensures StoredNotes(RemoveSpec(s, id, now).1) == Listed(s)
    ensures multiset(StoredNotes(RemoveSpec(s, id, now).1)) == multiset(StoredNotes(s))
  {
    SortDescPermutes(StoredNotes(s));
    HasIdPermuted(StoredNotes(s), Listed(s), id);
  }

  /** The local-only repository. */
  class LocalNotes {
    const store: Store

    constructor (store: Store)
      ensures this.store == store
    {
      this.store := store;
    }

    method List() returns (notes: seq<Note>)
      ensures notes == Listed(store.State())
    {
      notes := store.LoadNotesFromStorage();
      notes := SortDesc(notes);
    }

    method Create(id: string, title: Option<string>, content: Option<string>, now: int) returns (r: Result<Note, Error>)
      modifies store
      ensures (r, store.State()) == CreateSpec(old(store.State()), id, title, content, now)
    {
      var note := NewNote(id, title, content, now);
      var notes := List();
      notes := [note] + notes;
      store.SaveNotesToStorage(notes, now);
      var pushed := store.EnqueueOperation(CreateOp(note), now);
      if pushed.Fail? {
        return Err(pushed.error);
      }
      return Ok(note);
    }

    method Update(id: string, patch: Patch, now: int) returns (r: Result<Note, Error>)
      modifies store
      ensures (r, store.State()) == UpdateSpec(old(store.State()), id, patch, now)
    {
      var notes := List();
      var idx := IndexOf(notes, id);
      if idx == -1 {
        return Err(NoteNotFound);
      }
      notes := notes[idx := Updated(notes[idx], patch, now)];
      store.SaveNotesToStorage(notes, now);
      var pushed := store.EnqueueOperation(UpdateOp(id, patch), now);
      if pushed.Fail? {
        return Err(pushed.error);
      }
      return Ok(notes[idx]);
    }

    method Remove(id: string, now: int) returns (r: Outcome<Error>)
      modifies store
      ensures (r, store.State()) == RemoveSpec(old(store.State()), id, now)
    {
      var notes := List();
      var next := RemoveId(notes, id);
      store.SaveNotesToStorage(next, now);
      r := store.EnqueueOperation(DeleteOp(id), now);
    }

    /** `syncPending()`: the queue as it is; nothing is sent or removed. */
    method SyncPending() returns (ops: Option<seq<QueuedOp>>)
      ensures ops == StoredQueue(store.State())
    {
      ops := store.PeekOperations();
    }

    /** `static _dequeueAll()`: exactly `dequeueOperations()`. */
    static method DequeueAll(store: Store) returns (ops: Option<seq<QueuedOp>>)
      modifies store
      ensures ops == StoredQueue(old(store.State()))
      ensures store.State() == AfterDequeue(old(store.State()))
    {
      ops := store.DequeueOperations();
    }
  }
}
