/**
 * ApiNotesService.js: every method tries the network first and falls back to
 * the local cache on any failure; `list()` first drains the pending queue and
 * replays it against the server. The state the methods act on is the store
 * together with the remote (`World`); the functions below give each method's
 * result and the state afterwards, and the class's methods follow them.
 */
module ApiNotesService {
  import opened Wrappers
  import opened NoteModel
  import opened Ordering
  import opened Storage
  import opened Remote
  import LocalNotesService

  /** The browser's storage and the network, as one state. */
  datatype World = World(store: StoreState, remote: RemoteState)

  /** The request a queued operation is replayed as; `None` for an unknown
      type, which the replay's `switch` skips. */
  function RequestFor(op: Op): Option<Request> {
    match op
    case CreateOp(note) => Some(PostNote(note))
    case UpdateOp(id, patch) => Some(PutNote(id, patch, None))
    case DeleteOp(id) => Some(DeleteNote(id))
    case UnknownOp(_) => None
  }

  /** The `for...of` loop of `_replayQueueIfAny`: send each operation in order
      and stop (`break`) after the first call that throws. */
  function ReplayOps(ops: seq<QueuedOp>, r: RemoteState): RemoteState
    decreases |ops|
  {
    if ops == [] then r
    else match RequestFor(ops[0].op)
      case None => ReplayOps(ops[1..], r)
      case Some(req) =>
        var (res, r1) := Exchange(r, req);
        if res.Failed? then r1 else ReplayOps(ops[1..], r1)
  }

  /** The requests of the operations of known type, in queue order. */
  function Known(ops: seq<QueuedOp>): seq<Request>
    decreases |ops|
  {
    if ops == [] then []
    else match RequestFor(ops[0].op)
      case None => Known(ops[1..])
      case Some(req) => [req] + Known(ops[1..])
  }

  /** Independent reference for the replay: send requests until one fails. */
  function SendUntilFailure(reqs: seq<Request>, r: RemoteState): RemoteState
    decreases |reqs|
  {
    if reqs == [] then r
    else
      var (res, r1) := Exchange(r, reqs[0]);
      if res.Failed? then r1 else SendUntilFailure(reqs[1..], r1)
  }

  /** The reply at position `j` of the script succeeds. */
  predicate Delivers(replies: seq<Reply>, j: nat) {
    Interpret(ReplyAt(replies, j)).Returned?
  }

  /** `_replayQueueIfAny()`: dequeue the whole queue once (removing the key),
      then replay it. Whatever happens during the replay, nothing is put back:
      the failed operation and every later one are dropped. */
  function Replayed(w: World): (r: World)
    ensures r.store == AfterDequeue(w.store)
    ensures StoredQueue(w.store).Some? ==>
      r.remote == SendUntilFailure(Known(StoredQueue(w.store).value), w.remote)
    ensures StoredQueue(w.store).None? ==> r.remote == w.remote
  {
    var ops := StoredQueue(w.store);
    var s1 := AfterDequeue(w.store);
    if ops.None? || |ops.value| == 0 then
      World(s1, w.remote)
    else
      ReplayIsSendUntilFailure(ops.value, w.remote);
      World(s1, ReplayOps(ops.value, w.remote))
  }

  /** Replaying skips the unknown operations and otherwise sends exactly what
      the reference sends. */
  lemma {:induction false} ReplayIsSendUntilFailure(ops: seq<QueuedOp>, r: RemoteState)
    ensures ReplayOps(ops, r) == SendUntilFailure(Known(ops), r)
    decreases |ops|
  {
    if ops != [] {
      match RequestFor(ops[0].op)
      case None =>
        ReplayIsSendUntilFailure(ops[1..], r);
      case Some(req) =>
        var (res, r1) := Exchange(r, req);
        assert Known(ops) == [req] + Known(ops[1..]);
        assert Known(ops)[1..] == Known(ops[1..]);
        ReplayIsSendUntilFailure(ops[1..], r1);
    }
  }

  lemma DropShift(replies: seq<Reply>, j: nat)
    ensures ReplyAt(Drop(replies, 1), j) == ReplyAt(replies, j + 1)
    ensures Drop(Drop(replies, 1), j) == Drop(replies, j + 1)
  {
  }

  /** When every reply succeeds, all requests are sent in order and each
      consumes one reply. */
  lemma {:induction false} AllDelivered(reqs: seq<Request>, r: RemoteState)
    requires forall j :: 0 <= j < |reqs| ==> Delivers(r.replies, j)
    ensures SendUntilFailure(reqs, r) == RemoteState(Drop(r.replies, |reqs|), r.requests + reqs)
    decreases |reqs|
  {
    if reqs == [] {
      assert r.requests + reqs == r.requests;
    } else {
      assert Delivers(r.replies, 0);
      var (res, r1) := Exchange(r, reqs[0]);
      forall j | 0 <= j < |reqs[1..]| ensures Delivers(r1.replies, j) {
        DropShift(r.replies, j);
        assert Delivers(r.replies, j + 1);
      }
      AllDelivered(reqs[1..], r1);
      DropShift(r.replies, |reqs[1..]|);
      assert r1.requests + reqs[1..] == r.requests + reqs;
    }
  }

  /** The first failing reply ends the replay: the requests up to and including
      the failed one were sent, and no later request is. */
  lemma {:induction false} StopsAtFirstFailure(reqs: seq<Request>, r: RemoteState, j: nat)
    requires j < |reqs|
    requires forall i :: 0 <= i < j ==> Delivers(r.replies, i)
    requires !Delivers(r.replies, j)
    ensures SendUntilFailure(reqs, r) == RemoteState(Drop(r.replies, j + 1), r.requests + reqs[..j + 1])
    decreases j
  {
    var (res, r1) := Exchange(r, reqs[0]);
    if j == 0 {
      assert reqs[..1] == [reqs[0]];
    } else {
      assert Delivers(r.replies, 0);
      forall i | 0 <= i < j - 1 ensures Delivers(r1.replies, i) {
        DropShift(r.replies, i);
        assert Delivers(r.replies, i + 1);
      }
      DropShift(r.replies, j - 1);
      StopsAtFirstFailure(reqs[1..], r1, j - 1);
      DropShift(r.replies, j);
      assert r1.requests + reqs[1..][..j] == r.requests + reqs[..j + 1];
    }
  }

  /** The notes a GET answered with: an array body, or `[]` for anything else. */
  function BodyNotes(b: Body): seq<Note> {
    if b.NoteListBody? then b.notes else []
  }

  /** `list()`: replay, then GET. A successful GET is cached as it came and
      returned newest first; a failed GET returns the cache newest first and
      leaves it as it was. Either way the queue is gone. */
  function ListSpec(w: World, now: int): (r: (seq<Note>, World))
    ensures r.1.store.queue == Absent
    ensures r.1.remote.requests == Replayed(w).remote.requests + [GetNotes]
    ensures var get := Interpret(ReplyAt(Replayed(w).remote.replies, 0));
      && (get.Returned? ==> StoredNotes(r.1.store) == BodyNotes(get.value)
                            && r.0 == SortDesc(BodyNotes(get.value))
                            && StoredMeta(r.1.store) == Some(now))
      && (get.Failed? ==> r.0 == SortDesc(StoredNotes(w.store))
                          && r.1.store.notes == w.store.notes && r.1.store.meta == w.store.meta)
    ensures SortedDesc(r.0) && multiset(r.0) == multiset(StoredNotes(r.1.store))
  {
    var w1 := Replayed(w);
    var (res, r2) := Exchange(w1.remote, GetNotes);
    if res.Returned? then
      var notes := BodyNotes(res.value);
      SortDescFacts(notes);
      (SortDesc(notes), World(AfterSave(w1.store, notes, now), r2))
    else
      SortDescFacts(StoredNotes(w1.store));
      (SortDesc(StoredNotes(w1.store)), World(w1.store, r2))
  }

  /** `create`: POST an optimistic note. If the POST throws, the optimistic
      note is put in front of the cache as it is (not re-sorted) and returned,
      and nothing is enqueued. If it succeeds, `list()` runs and the server's
      note is returned, put in front of the refreshed list if that list lacks
      its id. A reply that is not a note reads `created.id` of `null`: with a
      non-empty refreshed list that throws into the local fallback. */
  function CreateSpec(w: World, id: string, title: Option<string>, content: Option<string>, now: int)
    : (r: (Option<Note>, World))
    ensures var opt := LocalNotesService.NewNote(id, title, content, now);
      var post := Interpret(ReplyAt(w.remote.replies, 0));
      && |w.remote.requests| < |r.1.remote.requests|
      && r.1.remote.requests[..|w.remote.requests| + 1] == w.remote.requests + [PostNote(opt)]
      && (post.Failed? ==> r.0 == Some(opt)
                           && StoredNotes(r.1.store) == [opt] + StoredNotes(w.store)
                           && r.1.store.queue == w.store.queue
                           && r.1.remote.requests == w.remote.requests + [PostNote(opt)])
      && (post.Returned? ==> r.1.store.queue == Absent)
      && (post.Returned? && post.value.NoteBody? ==>
            r.0 == Some(post.value.note) && HasId(StoredNotes(r.1.store), post.value.note.id))
    ensures var opt := LocalNotesService.NewNote(id, title, content, now);
      var (post, r1) := Exchange(w.remote, PostNote(opt));
      var (notes, w2) := ListSpec(World(w.store, r1), now);
      post.Returned? ==>
        && r.1.remote == w2.remote
        && r.1.store.queue == w2.store.queue
        && (post.value.NoteBody? ==>
              StoredNotes(r.1.store) == (if HasId(notes, post.value.note.id) then StoredNotes(w2.store)
                                         else [post.value.note] + notes))
        && (!post.value.NoteBody? && notes == [] ==> r.0 == None && r.1 == w2)
        && (!post.value.NoteBody? && notes != [] ==>
              r.0 == Some(opt) && StoredNotes(r.1.store) == [opt] + StoredNotes(w2.store))
  {
    var opt := LocalNotesService.NewNote(id, title, content, now);
    var (res, r1) := Exchange(w.remote, PostNote(opt));
    if res.Failed? then
      (Some(opt), World(AfterSave(w.store, [opt] + StoredNotes(w.store), now), r1))
    else
      var (notes, w2) := ListSpec(World(w.store, r1), now);
      assert w2.remote.requests[..|w.remote.requests| + 1] == w.remote.requests + [PostNote(opt)] by {
        RequestsOnlyGrow(World(w.store, r1));
      }
      if res.value.NoteBody? then
        var created := res.value.note;
        if HasId(notes, created.id) then
          MultisetHasId(notes, StoredNotes(w2.store), created.id);
          (Some(created), w2)
        else
          assert ([created] + notes)[0].id == created.id;
          (Some(created), World(AfterSave(w2.store, [created] + notes, now), w2.remote))
      else if notes == [] then
        (None, w2)
      else
        (Some(opt), World(AfterSave(w2.store, [opt] + StoredNotes(w2.store), now), w2.remote))
  }

  lemma MultisetHasId(a: seq<Note>, b: seq<Note>, id: string)
    requires multiset(a) == multiset(b)
    ensures HasId(a, id) <==> HasId(b, id)
  {
    forall n ensures n in a <==> n in b {
      assert n in a <==> n in multiset(a);
      assert n in b <==> n in multiset(b);
    }
    LocalNotesService.HasIdPermuted(a, b, id);
  }

  /** The replay and the GET of `list()` only append to the request log. */
  lemma RequestsOnlyGrow(w: World)
    ensures |w.remote.requests| <= |Replayed(w).remote.requests|
    ensures Replayed(w).remote.requests[..|w.remote.requests|] == w.remote.requests
  {
    var ops := StoredQueue(w.store);
    if ops.Some? {
      SendOnlyAppends(Known(ops.value), w.remote);
    }
  }

  lemma {:induction false} SendOnlyAppends(reqs: seq<Request>, r: RemoteState)
    ensures |r.requests| <= |SendUntilFailure(reqs, r).requests|
    ensures SendUntilFailure(reqs, r).requests[..|r.requests|] == r.requests
    decreases |reqs|
  {
    if reqs != [] {
      var (res, r1) := Exchange(r, reqs[0]);
      if !res.Failed? {
        SendOnlyAppends(reqs[1..], r1);
        assert r1.requests[..|r.requests|] == r.requests;
      }
    }
  }

  /** `{ ...cached, ...updated }` for the server's reply to a PUT: a note
      replaces every field; `null` or an array leaves the note as it was. */
  function MergeReply(n: Note, b: Body): Note {
    if b.NoteBody? then b.note else n
  }

  /** `update(id, patch)`: PUT `{ ...patch, updatedAt: now }`. On success the
      reply is merged into the cached note `id` if there is one (the cache is
      unchanged otherwise) and returned. On failure the patch and `now` are
      merged into the cached note, or "Note not found locally" is thrown when
      the cache lacks `id`. Neither path touches the queue. */
  function UpdateSpec(w: World, id: string, patch: Patch, now: int): (r: (Result<Body, Error>, World))
    ensures r.1.store.queue == w.store.queue
    ensures r.1.remote.requests == w.remote.requests + [PutNote(id, patch, Some(now))]
    ensures var put := Interpret(ReplyAt(w.remote.replies, 0));
      var cache := StoredNotes(w.store);
      var k := IndexOf(cache, id);
      && (k == -1 ==> r.1.store == w.store)
      && (put.Returned? ==> r.0 == Ok(put.value))
      && (put.Returned? && k != -1 ==> StoredNotes(r.1.store) == cache[k := MergeReply(cache[k], put.value)])
      && (put.Failed? && k == -1 ==> r.0 == Err(NoteNotFoundLocally))
      && (put.Failed? && k != -1 ==>
            r.0 == Ok(NoteBody(LocalNotesService.Updated(cache[k], patch, now)))
            && StoredNotes(r.1.store) == cache[k := LocalNotesService.Updated(cache[k], patch, now)])
  {
    var (res, r1) := Exchange(w.remote, PutNote(id, patch, Some(now)));
    var notes := StoredNotes(w.store);
    var k := IndexOf(notes, id);
    if res.Returned? then
      if k == -1 then (Ok(res.value), World(w.store, r1))
      else (Ok(res.value), World(AfterSave(w.store, notes[k := MergeReply(notes[k], res.value)], now), r1))
    else if k == -1 then
      (Err(NoteNotFoundLocally), World(w.store, r1))
    else
      var n := LocalNotesService.Updated(notes[k], patch, now);
      (Ok(NoteBody(n)), World(AfterSave(w.store, notes[k := n], now), r1))
  }

  /** `remove(id)`: DELETE, then drop `id` from the cache whether the call
      succeeded or not; it never throws and never enqueues. */
  function RemoveSpec(w: World, id: string, now: int): (r: World)
    ensures StoredNotes(r.store) == RemoveId(StoredNotes(w.store), id)
    ensures !HasId(StoredNotes(r.store), id)
    ensures r.store.queue == w.store.queue
    ensures r.remote.requests == w.remote.requests + [DeleteNote(id)]
  {
    var (res, r1) := Exchange(w.remote, DeleteNote(id));
    if res.Returned? then
      World(AfterSave(w.store, RemoveId(StoredNotes(w.store), id), now), r1)
    else
      World(AfterSave(w.store, RemoveId(StoredNotes(w.store), id), now), r1)
  }

  /** The repository backed by the server, with the store as cache and queue. */
  class ApiNotes {
    const store: Store
    const remote: RemoteApi

    constructor (store: Store, remote: RemoteApi)
      ensures this.store == store && this.remote == remote
    {
      this.store := store;
      this.remote := remote;
    }

    function Snapshot(): World
      reads store, remote
    {
      World(store.State(), remote.State())
    }

    method ReplayQueueIfAny()
      modifies store, remote
      ensures Snapshot() == Replayed(old(Snapshot()))
    {
      var ops := LocalNotesService.LocalNotes.DequeueAll(store);
      if ops.None? || |ops.value| == 0 {
        return;
      }
      var q := ops.value;
      var i := 0;
      while i < |q|
        invariant 0 <= i <= |q|
        invariant store.State() == AfterDequeue(old(store.State()))
        invariant ReplayOps(q[i..], remote.State()) == ReplayOps(q, old(remote.State()))
      {
        var req := RequestFor(q[i].op);
        assert q[i..][0] == q[i] && q[i..][1..] == q[i + 1..];
        if req.Some? {
          var res := remote.Call(req.value);
          if res.Failed? {
            break;
          }
        }
        i := i + 1;
      }
    }

    method List(now: int) returns (notes: seq<Note>)
      modifies store, remote
      ensures (notes, Snapshot()) == ListSpec(old(Snapshot()), now)
    {
      ReplayQueueIfAny();
      var data := remote.Call(GetNotes);
      if data.Returned? {
        notes := BodyNotes(data.value);
        store.SaveNotesToStorage(notes, now);
        notes := SortDesc(notes);
      } else {
        notes := store.LoadNotesFromStorage();
        notes := SortDesc(notes);
      }
    }

    method Create(id: string, title: Option<string>, content: Option<string>, now: int) returns (created: Option<Note>)
      modifies store, remote
      ensures (created, Snapshot()) == CreateSpec(old(Snapshot()), id, title, content, now)
    {
      var optimistic := LocalNotesService.NewNote(id, title, content, now);
      var res := remote.Call(PostNote(optimistic));
      if res.Returned? {
        var notes := List(now);
        if res.value.NoteBody? {
          created := Some(res.value.note);
          if !HasId(notes, created.value.id) {
            store.SaveNotesToStorage([created.value] + notes, now);
          }
          return;
        } else if notes == [] {
          return None;
        }
      }
      var local := store.LoadNotesFromStorage();
      local := [optimistic] + local;
      store.SaveNotesToStorage(local, now);
      created := Some(optimistic);
    }

    method Update(id: string, patch: Patch, now: int) returns (r: Result<Body, Error>)
      modifies store, remote
      ensures (r, Snapshot()) == UpdateSpec(old(Snapshot()), id, patch, now)
    {
      var res := remote.Call(PutNote(id, patch, Some(now)));
      var notes := store.LoadNotesFromStorage();
      var idx := IndexOf(notes, id);
      if res.Returned? {
        if idx != -1 {
          notes := notes[idx := MergeReply(notes[idx], res.value)];
          store.SaveNotesToStorage(notes, now);
        }
        return Ok(res.value);
      }
      if idx != -1 {
        notes := notes[idx := LocalNotesService.Updated(notes[idx], patch, now)];
        store.SaveNotesToStorage(notes, now);
        return Ok(NoteBody(notes[idx]));
      }
      return Err(NoteNotFoundLocally);
    }

    method Remove(id: string, now: int)
      modifies store, remote
      ensures Snapshot() == RemoveSpec(old(Snapshot()), id, now)
    {
      var res := remote.Call(DeleteNote(id));
      var notes := store.LoadNotesFromStorage();
      notes := RemoveId(notes, id);
      store.SaveNotesToStorage(notes, now);
    }

    method SyncPending()
      modifies store, remote
      ensures Snapshot() == Replayed(old(Snapshot()))
    {
      ReplayQueueIfAny();
    }
  }
}
