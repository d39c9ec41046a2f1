/**
 * The durable store (notes_frontend/src/utils/storage.js): `localStorage`
 * with three independent keys, `notes_app.notes`, `notes_app.meta` and
 * `notes_app.queue`. JSON encoding is the identity on the typed values a
 * record holds; what a key can hold is `Absent` (never written, or removed),
 * `Corrupt` (text that `JSON.parse` rejects) or a parsed `Value`.
 *
 * The pure functions on `StoreState` specify each storage function; the class
 * `Store` is the mutable `localStorage` whose methods are proved to follow them.
 */
module Storage {
  import opened Wrappers
  import opened NoteModel

  /** What one `localStorage` key holds. */
  datatype Record<T> = Absent | Corrupt | Value(v: T)

  /** A parsed notes record: an array of notes, or some JSON value that is not an array. */
  datatype NotesDoc = NoteArray(notes: seq<Note>) | NotAnArray

  /** `{ type, payload }` of a pending operation; `UnknownOp` is any other `type`. */
  datatype Op =
    | CreateOp(note: Note)                 // { type: "create", payload: { note } }
    | UpdateOp(id: string, patch: Patch)   // { type: "update", payload: { id, patch } }
    | DeleteOp(id: string)                 // { type: "delete", payload: { id } }
    | UnknownOp(kind: string)

  /** `{ ...op, ts }`: an operation stamped with its enqueue time. */
  datatype QueuedOp = QueuedOp(op: Op, ts: int)

  /** The three records. The meta record `{ updatedAt }` is kept as its stamp. */
  datatype StoreState = StoreState(notes: Record<NotesDoc>, meta: Record<int>, queue: Record<seq<QueuedOp>>)

  /** `safeParse(localStorage.getItem(key), fallback)`. A missing key makes
      `getItem` return `null`, and `JSON.parse(null)` parses the text "null"
      without throwing, so the result is `null` (`None`), not the fallback;
      only unparsable text yields the fallback. */
  function SafeParse<T>(rec: Record<T>, fallback: T): (r: Option<T>)
    ensures r == None <==> rec.Absent?
    ensures rec.Corrupt? ==> r == Some(fallback)
    ensures rec.Value? ==> r == Some(rec.v)
  {
    match rec
    case Absent => None
    case Corrupt => Some(fallback)
    case Value(v) => Some(v)
  }

  /** `loadNotesFromStorage()`: the stored array, or `[]` when the record is
      absent, unparsable or not an array. */
  function StoredNotes(s: StoreState): (r: seq<Note>)
    ensures s.notes.Value? && s.notes.v.NoteArray? ==> r == s.notes.v.notes
    ensures !(s.notes.Value? && s.notes.v.NoteArray?) ==> r == []
  {
    var parsed := SafeParse(s.notes, NoteArray([]));
    if parsed.Some? && parsed.value.NoteArray? then parsed.value.notes else []
  }

  /** `getMeta()`: `None` (JavaScript `null`) when the record is missing,
      the fallback `{ updatedAt: 0 }` when it is unparsable, and the stored
      stamp otherwise. */
  function StoredMeta(s: StoreState): (r: Option<int>)
    ensures r == None <==> s.meta.Absent?
    ensures s.meta.Corrupt? ==> r == Some(0)
    ensures s.meta.Value? ==> r == Some(s.meta.v)
  {
    SafeParse(s.meta, 0)
  }

  /** What `peekOperations()` returns and `dequeueOperations()` hands back:
      `None` for a missing queue, `[]` for an unparsable one, and the stored
      entries otherwise. */
  function StoredQueue(s: StoreState): (r: Option<seq<QueuedOp>>)
    ensures r == None <==> s.queue.Absent?
    ensures s.queue.Corrupt? ==> r == Some([])
    ensures s.queue.Value? ==> r == Some(s.queue.v)
  {
    SafeParse(s.queue, [])
  }

  /** The records after `saveNotesToStorage(notes)` at time `now`: loading gives
      back exactly `notes`, meta is `{ updatedAt: now }`, the queue is untouched. */
  function AfterSave(s: StoreState, notes: seq<Note>, now: int): (r: StoreState)
    ensures StoredNotes(r) == notes
    ensures StoredMeta(r) == Some(now)
    ensures r.queue == s.queue
  {
    s.(notes := Value(NoteArray(notes)), meta := Value(now))
  }

  /** The records after `enqueueOperation(op)` at time `now`. `q.push` on the
      `null` that a missing queue parses to throws a TypeError before anything
      is written; otherwise `{ ...op, ts: now }` goes at the end of the queue. */
  function AfterEnqueue(s: StoreState, op: Op, now: int): (r: Result<StoreState, Error>)
    ensures r.Err? <==> s.queue.Absent?
    ensures r.Err? ==> r.error == TypeError
    ensures r.Ok? ==> StoredQueue(r.value) == Some(StoredQueue(s).value + [QueuedOp(op, now)])
    ensures r.Ok? ==> r.value.notes == s.notes && r.value.meta == s.meta
  {
    match StoredQueue(s)
    case None => Err(TypeError)
    case Some(q) => Ok(s.(queue := Value(q + [QueuedOp(op, now)])))
  }

  /** The records after `dequeueOperations()`: the queue key is removed, nothing else changes. */
  function AfterDequeue(s: StoreState): (r: StoreState)
    ensures r.queue == Absent && StoredQueue(r) == None
    ensures r.notes == s.notes && r.meta == s.meta
  {
    s.(queue := Absent)
  }

  /** Enqueues `ops` one after the other, all stamped `now`, stopping at the first throw. */
  function EnqueueAll(s: StoreState, ops: seq<Op>, now: int): Result<StoreState, Error>
    decreases |ops|
  {
    if ops == [] then Ok(s)
    else match AfterEnqueue(s, ops[0], now)
      case Err(e) => Err(e)
      case Ok(s1) => EnqueueAll(s1, ops[1..], now)
  }

  /** `ops` stamped `now`, in the same order. */
  function Stamp(ops: seq<Op>, now: int): seq<QueuedOp> {
    if ops == [] then [] else [QueuedOp(ops[0], now)] + Stamp(ops[1..], now)
  }

  /** FIFO: on a queue that exists, enqueuing operations and then dequeuing
      returns the old entries followed by the new ones in insertion order, and
      leaves the notes and meta records as they were. */
  lemma {:induction false} EnqueueAllThenDequeue(s: StoreState, ops: seq<Op>, now: int)
    requires !s.queue.Absent?
    ensures EnqueueAll(s, ops, now).Ok?
    ensures StoredQueue(EnqueueAll(s, ops, now).value) == Some(StoredQueue(s).value + Stamp(ops, now))
    ensures EnqueueAll(s, ops, now).value.notes == s.notes
    ensures EnqueueAll(s, ops, now).value.meta == s.meta
    decreases |ops|
  {
    if ops == [] {
      assert StoredQueue(s).value + Stamp(ops, now) == StoredQueue(s).value;
    } else {
      var q, x := StoredQueue(s).value, QueuedOp(ops[0], now);
      var s1 := AfterEnqueue(s, ops[0], now).value;
      assert StoredQueue(s1).value == q + [x];
      EnqueueAllThenDequeue(s1, ops[1..], now);
      assert EnqueueAll(s, ops, now) == EnqueueAll(s1, ops[1..], now);
      assert Stamp(ops, now) == [x] + Stamp(ops[1..], now);
      assert (q + [x]) + Stamp(ops[1..], now) == q + Stamp(ops, now);
    }
  }

  /** After a dequeue, a second dequeue (or a peek) returns the missing-key
      result `None`, and an enqueue throws: the removed key parses to `null`. */
  lemma AfterDequeueNothingQueues(s: StoreState, op: Op, now: int)
    ensures StoredQueue(AfterDequeue(s)) == None
    ensures AfterEnqueue(AfterDequeue(s), op, now) == Err(TypeError)
  {
  }

  /** `localStorage` together with the functions of storage.js. */
  class Store {
    var notesRecord: Record<NotesDoc>
    var metaRecord: Record<int>
    var queueRecord: Record<seq<QueuedOp>>

    function State(): StoreState
      reads this
    {
      StoreState(notesRecord, metaRecord, queueRecord)
    }

    constructor (initial: StoreState)
      ensures State() == initial
    {
      notesRecord, metaRecord, queueRecord := initial.notes, initial.meta, initial.queue;
    }

    method LoadNotesFromStorage() returns (notes: seq<Note>)
      ensures notes == StoredNotes(State())
    {
      var parsed := SafeParse(notesRecord, NoteArray([]));
      if parsed.Some? && parsed.value.NoteArray? {
        notes := parsed.value.notes;
      } else {
        notes := [];
      }
    }

    method SaveNotesToStorage(notes: seq<Note>, now: int)
      modifies this
      ensures State() == AfterSave(old(State()), notes, now)
    {
      notesRecord := Value(NoteArray(notes));
      metaRecord := Value(now);
    }

    method GetMeta() returns (meta: Option<int>)
      ensures meta == StoredMeta(State())
    {
      meta := SafeParse(metaRecord, 0);
    }

    method EnqueueOperation(op: Op, now: int) returns (r: Outcome<Error>)
      modifies this
      ensures r.Fail? <==> AfterEnqueue(old(State()), op, now).Err?
      ensures r.Fail? ==> r.error == TypeError && State() == old(State())
      ensures r.Pass? ==> State() == AfterEnqueue(old(State()), op, now).value
    {
      var q := SafeParse(queueRecord, []);
      if q.None? {
        return Fail(TypeError);
      }
      var pushed := q.value + [QueuedOp(op, now)];
      queueRecord := Value(pushed);
      return Pass;
    }

    method DequeueOperations() returns (ops: Option<seq<QueuedOp>>)
      modifies this
      ensures ops == StoredQueue(old(State()))
      ensures State() == AfterDequeue(old(State()))
    {
      ops := SafeParse(queueRecord, []);
      queueRecord := Absent;
    }

    method PeekOperations() returns (ops: Option<seq<QueuedOp>>)
      ensures ops == StoredQueue(State())
    {
      ops := SafeParse(queueRecord, []);
    }
  }
}
