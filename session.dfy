/**
 * NotesContext.jsx: the session state container. `reducer` and the derived
 * view `filteredNotes` are functions; the actions and the load-on-mount
 * effect are sequences of repository calls and dispatches, given here as
 * functions of the state, the store and the remote, and followed by the
 * methods of `Session`. Each action runs to completion before the next.
 */
module NotesContext {
  import opened Wrappers
  import opened NoteModel
  import opened Ordering
  import opened Text
  import opened Storage
  import opened Remote
  import LocalNotesService
  import ApiNotesService
  import NotesListView
  import Env

  datatype ServiceType = ApiService | LocalService

  /** The reducer's state; `error` holds the failure the last action reported. */
  datatype SessionState = SessionState(
    notes: seq<Note>,
    activeId: Option<string>,
    filter: string,
    loading: bool,
    error: Option<Error>,
    serviceType: ServiceType)

  datatype Action =
    | SetLoading(on: bool)
    | SetError(err: Error)
    | SetNotes(list: seq<Note>)
    | Select(target: Option<string>)
    | SetFilter(query: string)
    | SetService(kind: ServiceType)
    | UnknownAction(name: string)

  /** `initialState`: nothing loaded, nothing selected, and the API service
      exactly when the backend is enabled. */
  function InitialState(env: Env.EnvVars, normalize: string -> Option<string>): (r: SessionState)
    ensures r.notes == [] && r.activeId == None && r.filter == "" && !r.loading && r.error == None
    ensures r.serviceType == ApiService <==> Env.Truthy(Env.BackendBaseUrl(env, normalize))
  {
    SessionState([], None, "", false, None,
      if Env.BackendEnabled(env, normalize) then ApiService else LocalService)
  }

  /** `reducer`: each known action replaces its own field and no other; any
      other action returns the state unchanged. */
  function Reduce(st: SessionState, a: Action): (r: SessionState)
    ensures a.UnknownAction? ==> r == st
    ensures r.notes == (if a.SetNotes? then a.list else st.notes)
    ensures r.activeId == (if a.Select? then a.target else st.activeId)
    ensures r.filter == (if a.SetFilter? then a.query else st.filter)
    ensures r.loading == (if a.SetLoading? then a.on else st.loading)
    ensures r.error == (if a.SetError? then Some(a.err) else st.error)
    ensures r.serviceType == (if a.SetService? then a.kind else st.serviceType)
  {
    match a
    case SetLoading(on) => st.(loading := on)
    case SetError(err) => st.(error := Some(err))
    case SetNotes(list) => st.(notes := list)
    case Select(target) => st.(activeId := target)
    case SetFilter(query) => st.(filter := query)
    case SetService(kind) => st.(serviceType := kind)
    case UnknownAction(_) => st
  }

  /** Dispatching the same action twice is the same as dispatching it once. */
  lemma ReduceIdempotent(st: SessionState, a: Action)
    ensures Reduce(Reduce(st, a), a) == Reduce(st, a)
  {
  }

  /** The search query: the filter lowercased, then trimmed. */
  function Query(filter: string): string {
    Trim(ToLower(filter))
  }

  predicate Matches(n: Note, q: string) {
    Contains(ToLower(n.title), q) || Contains(ToLower(n.content), q)
  }

  /** `list.filter(...)`: the matching notes, in their order. */
  function Matching(s: seq<Note>, q: string): seq<Note>
    decreases |s|
  {
    if s == [] then []
    else
      var rest := Matching(s[1..], q);
      if Matches(s[0], q) then [s[0]] + rest else rest
  }

  /** The filter keeps exactly the matching notes, each at most as often as it
      occurs, and a newest-first list stays newest first. */
  lemma {:induction false} MatchingFacts(s: seq<Note>, q: string)
    ensures var r := Matching(s, q);
      && |r| <= |s|
      && (forall n :: n in r <==> n in s && Matches(n, q))
      && multiset(r) <= multiset(s)
      && (SortedDesc(s) ==> SortedDesc(r))
    decreases |s|
  {
    if s != [] {
      var rest := Matching(s[1..], q);
      MatchingFacts(s[1..], q);
      assert s == [s[0]] + s[1..];
      if Matches(s[0], q) {
        HeadThenMatching(s, rest);
      }
    }
  }

  /** `filter` is decided note by note: a single note is kept exactly when it
      matches, and the result for a concatenation is the concatenation of the
      results, so the kept notes keep their order and multiplicity. */
  lemma {:induction false} MatchingIsFilter(a: seq<Note>, b: seq<Note>, n: Note, q: string)
    ensures Matching([n], q) == (if Matches(n, q) then [n] else [])
    ensures Matching(a + b, q) == Matching(a, q) + Matching(b, q)
    decreases |a|
  {
    MatchingOne(n, q);
    MatchingAppend(a, b, q);
  }

  lemma MatchingOne(n: Note, q: string)
    ensures Matching([n], q) == (if Matches(n, q) then [n] else [])
  {
    assert [n][1..] == [];
    assert Matching([n][1..], q) == [];
  }

  lemma {:induction false} MatchingAppend(a: seq<Note>, b: seq<Note>, q: string)
    ensures Matching(a + b, q) == Matching(a, q) + Matching(b, q)
    decreases |a|
  {
    if a == [] {
      assert a + b == b;
    } else {
      var ab := a + b;
      assert ab != [] && ab[0] == a[0] && ab[1..] == a[1..] + b;
      MatchingAppend(a[1..], b, q);
      var rest := Matching(a[1..], q) + Matching(b, q);
      assert Matching(ab[1..], q) == rest;
      if Matches(a[0], q) {
        assert Matching(ab, q) == [a[0]] + rest;
        assert Matching(a, q) == [a[0]] + Matching(a[1..], q);
        assert [a[0]] + rest == ([a[0]] + Matching(a[1..], q)) + Matching(b, q);
      } else {
        assert Matching(ab, q) == rest;
        assert Matching(a, q) == Matching(a[1..], q);
      }
    }
  }

  lemma HeadThenMatching(s: seq<Note>, rest: seq<Note>)
    requires s != [] && forall n :: n in rest ==> n in s[1..]
    requires SortedDesc(s) ==> SortedDesc(rest)
    ensures SortedDesc(s) ==> SortedDesc([s[0]] + rest)
  {
    if SortedDesc(s) {
      forall m | m in rest ensures m.updatedAt <= s[0].updatedAt {
        var j :| 0 <= j < |s[1..]| && s[1..][j] == m;
        assert s[j + 1] == m;
      }
      ConsSorted(s[0], rest);
    }
  }

  /** `filteredNotes`: the notes newest first, and with a non-blank query only
      those whose lowercased title or content contains it, in the same order. */
  function FilteredNotes(notes: seq<Note>, filter: string): (r: seq<Note>)
    ensures Query(filter) == [] ==> r == SortDesc(notes)
    ensures Query(filter) != [] ==> r == Matching(SortDesc(notes), Query(filter))
    ensures SortedDesc(r)
    ensures forall n :: n in r <==> n in notes && (Query(filter) == [] || Matches(n, Query(filter)))
  {
    var q := Query(filter);
    var list := SortDesc(notes);
    SortDescPermutes(notes);
    SortDescSorted(notes);
    MatchingFacts(list, q);
    if q == [] then list else Matching(list, q)
  }

  lemma LowerIdempotent(s: string)
    ensures ToLower(ToLower(s)) == ToLower(s)
  {
    assert forall i :: 0 <= i < |s| ==> LowerChar(LowerChar(s[i])) == LowerChar(s[i]);
  }

  /** The filter's letter case does not matter. */
  lemma FilterIgnoresCase(notes: seq<Note>, filter: string)
    ensures FilteredNotes(notes, ToLower(filter)) == FilteredNotes(notes, filter)
  {
    LowerIdempotent(filter);
  }

  /** The state the context exposes: the notes replaced by the filtered view. */
  function Exposed(st: SessionState): (r: SessionState)
    ensures r == st.(notes := r.notes)
    ensures forall n :: n in r.notes ==> n in st.notes
    ensures Query(st.filter) == [] ==> multiset(r.notes) == multiset(st.notes)
    ensures r.notes == FilteredNotes(st.notes, st.filter)
  {
    SortDescPermutes(st.notes);
    st.(notes := FilteredNotes(st.notes, st.filter))
  }

  /** The list component's own sort leaves the exposed notes as they are. */
  lemma DisplayOfExposed(st: SessionState)
    ensures NotesListView.DisplayOrder(Exposed(st).notes) == Exposed(st).notes
  {
    SortDescOfSorted(Exposed(st).notes);
  }

  type World = ApiNotesService.World

  /** `service.list()` of the active repository: newest first, and the notes
      the cache holds afterwards. */
  function RepoList(t: ServiceType, w: World, now: int): (r: (seq<Note>, World))
    ensures SortedDesc(r.0)
    ensures multiset(r.0) == multiset(StoredNotes(r.1.store))
    ensures t == LocalService ==> r == (LocalNotesService.Listed(w.store), w)
  {
    if t == ApiService then ApiNotesService.ListSpec(w, now)
    else
      SortDescFacts(StoredNotes(w.store));
      (LocalNotesService.Listed(w.store), w)
  }

  /** `service.create(...)`: the API repository never throws here (its result
      may be `null`); the local one throws when the enqueue does. */
  function RepoCreate(t: ServiceType, w: World, id: string, title: Option<string>, content: Option<string>, now: int)
    : (r: (Result<Option<Note>, Error>, World))
    ensures t == ApiService ==> r.0.Ok?
    ensures t == LocalService ==> r.1.remote == w.remote
  {
    if t == ApiService then
      var (c, w1) := ApiNotesService.CreateSpec(w, id, title, content, now);
      (Ok(c), w1)
    else
      var (c, s1) := LocalNotesService.CreateSpec(w.store, id, title, content, now);
      (if c.Ok? then Ok(Some(c.value)) else Err(c.error), ApiNotesService.World(s1, w.remote))
  }

  /** `service.update(id, patch)`, with the local repository's note as a reply body. */
  function RepoUpdate(t: ServiceType, w: World, id: string, patch: Patch, now: int): (r: (Result<Body, Error>, World))
    ensures t == LocalService ==> r.1.remote == w.remote
    ensures r.0.Err? ==> r.0.error == (if t == ApiService then NoteNotFoundLocally
                                       else if HasId(StoredNotes(w.store), id) then TypeError else NoteNotFound)
  {
    if t == ApiService then ApiNotesService.UpdateSpec(w, id, patch, now)
    else
      var (u, s1) := LocalNotesService.UpdateSpec(w.store, id, patch, now);
      (if u.Ok? then Ok(NoteBody(u.value)) else Err(u.error), ApiNotesService.World(s1, w.remote))
  }

  /** `service.remove(id)`: only the local repository can throw. */
  function RepoRemove(t: ServiceType, w: World, id: string, now: int): (r: (Outcome<Error>, World))
    ensures t == ApiService ==> r.0.Pass?
    ensures t == LocalService ==> r.1.remote == w.remote
    ensures !HasId(StoredNotes(r.1.store), id)
  {
    if t == ApiService then (Pass, ApiNotesService.RemoveSpec(w, id, now))
    else
      var (o, s1) := LocalNotesService.RemoveSpec(w.store, id, now);
      (o, ApiNotesService.World(s1, w.remote))
  }

  /** `!state.activeId`: no selection, or the empty id. */
  predicate NoSelection(id: Option<string>) {
    id.None? || id.value == []
  }

  /** The load-on-mount effect (and on a change of service): load, store the
      list, and select the first note only when nothing is selected. The
      repositories' `list()` never throws, so its `catch` is not reached. */
  function MountSpec(st: SessionState, w: World, now: int): (r: (SessionState, World))
    ensures var (notes, w1) := RepoList(st.serviceType, w, now);
      && r.1 == w1
      && r.0.notes == notes && SortedDesc(r.0.notes)
      && !r.0.loading
      && r.0.filter == st.filter && r.0.error == st.error && r.0.serviceType == st.serviceType
      && (!NoSelection(st.activeId) || notes == [] ==> r.0.activeId == st.activeId)
      && (NoSelection(st.activeId) && notes != [] ==> r.0.activeId == Some(notes[0].id))
  {
    var st1 := Reduce(st, SetLoading(true));
    var (notes, w1) := RepoList(st.serviceType, w, now);
    var st2 := Reduce(st1, SetNotes(notes));
    var st3 := if NoSelection(st.activeId) && notes != [] then Reduce(st2, Select(Some(notes[0].id))) else st2;
    (Reduce(st3, SetLoading(false)), w1)
  }

  /** `loadNotes()`: the list is returned and stored, and loading ends. */
  function LoadNotesSpec(st: SessionState, w: World, now: int): (r: (seq<Note>, SessionState, World))
    ensures (r.0, r.2) == RepoList(st.serviceType, w, now)
    ensures r.1 == st.(notes := r.0, loading := false)
  {
    var st1 := Reduce(st, SetLoading(true));
    var (notes, w1) := RepoList(st.serviceType, w, now);
    var st2 := Reduce(st1, SetNotes(notes));
    (notes, Reduce(st2, SetLoading(false)), w1)
  }

  /** `createNote`: on a thrown create only `error` changes; otherwise the
      refreshed list is stored and the created note selected. A `null` result
      throws at `created.id` after the list was stored. */
  function CreateNoteSpec(st: SessionState, w: World, id: string, title: Option<string>, content: Option<string>, now: int)
    : (r: (Option<Note>, SessionState, World))
    ensures var (c, w1) := RepoCreate(st.serviceType, w, id, title, content, now);
      && (c.Err? ==> r == (None, st.(error := Some(c.error)), w1))
      && (c.Ok? ==> var (notes, w2) := RepoList(st.serviceType, w1, now);
            && r.2 == w2 && r.0 == c.value
            && r.1.notes == notes && SortedDesc(r.1.notes)
            && r.1.filter == st.filter && r.1.loading == st.loading && r.1.serviceType == st.serviceType
            && (c.value.Some? ==> r.1.activeId == Some(c.value.value.id) && r.1.error == st.error)
            && (c.value.None? ==> r.1.activeId == st.activeId && r.1.error == Some(TypeError)))
  {
    var (c, w1) := RepoCreate(st.serviceType, w, id, title, content, now);
    if c.Err? then (None, Reduce(st, SetError(c.error)), w1)
    else
      var (notes, w2) := RepoList(st.serviceType, w1, now);
      var st1 := Reduce(st, SetNotes(notes));
      if c.value.None? then (None, Reduce(st1, SetError(TypeError)), w2)
      else (c.value, Reduce(st1, Select(Some(c.value.value.id))), w2)
  }

  /** `updateNote`: on success the refreshed list is stored and the selection
      kept; on failure only `error` changes. */
  function UpdateNoteSpec(st: SessionState, w: World, id: string, patch: Patch, now: int)
    : (r: (Option<Body>, SessionState, World))
    ensures var (u, w1) := RepoUpdate(st.serviceType, w, id, patch, now);
      && (u.Err? ==> r == (None, st.(error := Some(u.error)), w1))
      && (u.Ok? ==> var (notes, w2) := RepoList(st.serviceType, w1, now);
            r == (Some(u.value), st.(notes := notes), w2))
  {
    var (u, w1) := RepoUpdate(st.serviceType, w, id, patch, now);
    if u.Err? then (None, Reduce(st, SetError(u.error)), w1)
    else
      var (notes, w2) := RepoList(st.serviceType, w1, now);
      (Some(u.value), Reduce(st, SetNotes(notes)), w2)
  }

  /** `notes[0]?.id || null`. */
  function FirstId(notes: seq<Note>): (r: Option<string>)
    ensures r.Some? <==> notes != [] && notes[0].id != []
    ensures r.Some? ==> r.value == notes[0].id
  {
    if notes != [] && notes[0].id != [] then Some(notes[0].id) else None
  }

  /** `deleteNote`: on success the refreshed list is stored and its first note
      selected (or none), whatever was selected before; on failure only
      `error` changes. */
  function DeleteNoteSpec(st: SessionState, w: World, id: string, now: int): (r: (SessionState, World))
    ensures var (o, w1) := RepoRemove(st.serviceType, w, id, now);
      && (o.Fail? ==> r == (st.(error := Some(o.error)), w1))
      && (o.Pass? ==> var (notes, w2) := RepoList(st.serviceType, w1, now);
            r == (st.(notes := notes, activeId := FirstId(notes)), w2))
  {
    var (o, w1) := RepoRemove(st.serviceType, w, id, now);
    if o.Fail? then (Reduce(st, SetError(o.error)), w1)
    else
      var (notes, w2) := RepoList(st.serviceType, w1, now);
      var st1 := Reduce(st, SetNotes(notes));
      (Reduce(st1, Select(FirstId(notes))), w2)
  }

  /** `useApi()` / `useLocal()`: the service changes, and the load effect runs
      only when it actually changed. */
  function SwitchSpec(st: SessionState, w: World, t: ServiceType, now: int): (r: (SessionState, World))
    ensures r.0.serviceType == t
    ensures t == st.serviceType ==> r == (st, w)
    ensures t != st.serviceType ==> r == MountSpec(st.(serviceType := t), w, now)
  {
    var st1 := Reduce(st, SetService(t));
    if t == st.serviceType then (st1, w) else MountSpec(st1, w, now)
  }

  /** With the local repository and a queue present, a created note is stored,
      listed, selected and queued, and no error is reported. */
  lemma LocalCreateSelectsNewNote(st: SessionState, w: World, id: string, title: Option<string>, content: Option<string>, now: int)
    requires st.serviceType == LocalService
    requires StoredQueue(w.store).Some?
    ensures var (created, st2, w2) := CreateNoteSpec(st, w, id, title, content, now);
      var note := LocalNotesService.NewNote(id, title, content, now);
      && created == Some(note)
      && st2.activeId == Some(id) && HasId(st2.notes, id) && st2.error == st.error
      && StoredQueue(w2.store) == Some(StoredQueue(w.store).value + [QueuedOp(CreateOp(note), now)])
      && w2.remote == w.remote
  {
    var note := LocalNotesService.NewNote(id, title, content, now);
    var (c, s1) := LocalNotesService.CreateSpec(w.store, id, title, content, now);
    var stored := StoredNotes(s1);
    assert stored[0] == note;
    SortDescPermutes(stored);
    LocalNotesService.HasIdPermuted(stored, SortDesc(stored), id);
  }

  /** With the local repository and no queue record (as right after a replay),
      `createNote` reports failure and keeps the list it showed, although the
      note has been persisted. */
  lemma LocalCreateWithoutQueue(st: SessionState, w: World, id: string, title: Option<string>, content: Option<string>, now: int)
    requires st.serviceType == LocalService
    requires StoredQueue(w.store).None?
    ensures var (created, st2, w2) := CreateNoteSpec(st, w, id, title, content, now);
      && created == None
      && st2 == st.(error := Some(TypeError))
      && HasId(StoredNotes(w2.store), id)
  {
    var (c, s1) := LocalNotesService.CreateSpec(w.store, id, title, content, now);
    assert StoredNotes(s1)[0].id == id;
  }

  /** Updating a note the local repository lacks reports "Note not found" and
      changes nothing else. */
  lemma LocalUpdateMissing(st: SessionState, w: World, id: string, patch: Patch, now: int)
    requires st.serviceType == LocalService
    requires !HasId(StoredNotes(w.store), id)
    ensures UpdateNoteSpec(st, w, id, patch, now) == (None, st.(error := Some(NoteNotFound)), w)
  {
  }

  /** A successful local delete lists no note with that id and selects the
      first listed note. */
  lemma LocalDeleteUnlists(st: SessionState, w: World, id: string, now: int)
    requires st.serviceType == LocalService
    requires StoredQueue(w.store).Some?
    ensures var (st2, w2) := DeleteNoteSpec(st, w, id, now);
      && !HasId(st2.notes, id) && st2.activeId == FirstId(st2.notes) && st2.error == st.error
  {
    var (o, w1) := RepoRemove(st.serviceType, w, id, now);
    var stored := StoredNotes(w1.store);
    SortDescPermutes(stored);
    LocalNotesService.HasIdPermuted(stored, SortDesc(stored), id);
  }

  /** With the API repository `deleteNote` never reports an error. */
  lemma ApiDeleteNeverFails(st: SessionState, w: World, id: string, now: int)
    requires st.serviceType == ApiService
    ensures var (st2, w2) := DeleteNoteSpec(st, w, id, now);
      st2.error == st.error && st2.activeId == FirstId(st2.notes)
  {
  }

  /** The session: the reducer's state and the two repositories over one store. */
  class Session {
    var state: SessionState
    const store: Store
    const remote: RemoteApi
    const local: LocalNotesService.LocalNotes
    const api: ApiNotesService.ApiNotes

    /** Both repositories share the store; the API one talks to `remote`. */
    predicate Valid() {
      local.store == store && api.store == store && api.remote == remote
    }

    function Snapshot(): World
      reads store, remote
    {
      ApiNotesService.World(store.State(), remote.State())
    }

    constructor (store: Store, remote: RemoteApi, env: Env.EnvVars, normalize: string -> Option<string>)
      ensures Valid() && this.store == store && this.remote == remote
      ensures state == InitialState(env, normalize)
    {
      this.store := store;
      this.remote := remote;
      local := new LocalNotesService.LocalNotes(store);
      api := new ApiNotesService.ApiNotes(store, remote);
      state := InitialState(env, normalize);
    }

    method Dispatch(a: Action)
      modifies this
      ensures state == Reduce(old(state), a)
    {
      state := Reduce(state, a);
    }

    method ListRepo(now: int) returns (notes: seq<Note>)
      requires Valid()
      modifies store, remote
      ensures (notes, Snapshot()) == RepoList(state.serviceType, old(Snapshot()), now)
    {
      if state.serviceType == ApiService {
        notes := api.List(now);
      } else {
        notes := local.List();
      }
    }

    method CreateInRepo(id: string, title: Option<string>, content: Option<string>, now: int)
      returns (r: Result<Option<Note>, Error>)
      requires Valid()
      modifies store, remote
      ensures (r, Snapshot()) == RepoCreate(state.serviceType, old(Snapshot()), id, title, content, now)
    {
      if state.serviceType == ApiService {
        var created := api.Create(id, title, content, now);
        r := Ok(created);
      } else {
        var created := local.Create(id, title, content, now);
        r := if created.Ok? then Ok(Some(created.value)) else Err(created.error);
      }
    }

    method UpdateInRepo(id: string, patch: Patch, now: int) returns (r: Result<Body, Error>)
      requires Valid()
      modifies store, remote
      ensures (r, Snapshot()) == RepoUpdate(state.serviceType, old(Snapshot()), id, patch, now)
    {
      if state.serviceType == ApiService {
        r := api.Update(id, patch, now);
      } else {
        var updated := local.Update(id, patch, now);
        r := if updated.Ok? then Ok(NoteBody(updated.value)) else Err(updated.error);
      }
    }

    method RemoveInRepo(id: string, now: int) returns (r: Outcome<Error>)
      requires Valid()
      modifies store, remote
      ensures (r, Snapshot()) == RepoRemove(state.serviceType, old(Snapshot()), id, now)
    {
      if state.serviceType == ApiService {
        api.Remove(id, now);
        r := Pass;
      } else {
        r := local.Remove(id, now);
      }
    }

    /** The load effect that runs on mount and after a change of service. */
    method Mount(now: int)
      requires Valid()
      modifies this, store, remote
      ensures (state, Snapshot()) == MountSpec(old(state), old(Snapshot()), now)
    {
      var wasUnselected := NoSelection(state.activeId);
      Dispatch(SetLoading(true));
      var notes := ListRepo(now);
      Dispatch(SetNotes(notes));
      if wasUnselected && notes != [] {
        Dispatch(Select(Some(notes[0].id)));
      }
      Dispatch(SetLoading(false));
    }

    method LoadNotes(now: int) returns (notes: seq<Note>)
      requires Valid()
      modifies this, store, remote
      ensures (notes, state, Snapshot()) == LoadNotesSpec(old(state), old(Snapshot()), now)
    {
      Dispatch(SetLoading(true));
      notes := ListRepo(now);
      Dispatch(SetNotes(notes));
      Dispatch(SetLoading(false));
    }

    method SelectNote(id: Option<string>)
      modifies this
      ensures state == Reduce(old(state), Select(id))
    {
      Dispatch(Select(id));
    }

    method CreateNote(id: string, title: Option<string>, content: Option<string>, now: int)
      returns (created: Option<Note>)
      requires Valid()
      modifies this, store, remote
      ensures (created, state, Snapshot()) == CreateNoteSpec(old(state), old(Snapshot()), id, title, content, now)
    {
      var c := CreateInRepo(id, title, content, now);
      if c.Err? {
        Dispatch(SetError(c.error));
        return None;
      }
      var notes := ListRepo(now);
      Dispatch(SetNotes(notes));
      if c.value.None? {
        Dispatch(SetError(TypeError));
        return None;
      }
      Dispatch(Select(Some(c.value.value.id)));
      created := c.value;
    }

    method UpdateNote(id: string, patch: Patch, now: int) returns (updated: Option<Body>)
      requires Valid()
      modifies this, store, remote
      ensures (updated, state, Snapshot()) == UpdateNoteSpec(old(state), old(Snapshot()), id, patch, now)
    {
      var u := UpdateInRepo(id, patch, now);
      if u.Err? {
        Dispatch(SetError(u.error));
        return None;
      }
      var notes := ListRepo(now);
      Dispatch(SetNotes(notes));
      updated := Some(u.value);
    }

    method DeleteNote(id: string, now: int)
      requires Valid()
      modifies this, store, remote
      ensures (state, Snapshot()) == DeleteNoteSpec(old(state), old(Snapshot()), id, now)
    {
      var o := RemoveInRepo(id, now);
      if o.Fail? {
        Dispatch(SetError(o.error));
        return;
      }
      var notes := ListRepo(now);
      Dispatch(SetNotes(notes));
      Dispatch(Select(FirstId(notes)));
    }

    method SetFilterText(q: string)
      modifies this
      ensures state == Reduce(old(state), SetFilter(q))
    {
      Dispatch(SetFilter(q));
    }

    method Switch(t: ServiceType, now: int)
      requires Valid()
      modifies this, store, remote
      ensures (state, Snapshot()) == SwitchSpec(old(state), old(Snapshot()), t, now)
    {
      var before := state.serviceType;
      Dispatch(SetService(t));
      if t != before {
        Mount(now);
      }
    }

    method UseApi(now: int)
      requires Valid()
      modifies this, store, remote
      ensures (state, Snapshot()) == SwitchSpec(old(state), old(Snapshot()), ApiService, now)
    {
      Switch(ApiService, now);
    }

    method UseLocal(now: int)
      requires Valid()
      modifies this, store, remote
      ensures (state, Snapshot()) == SwitchSpec(old(state), old(Snapshot()), LocalService, now)
    {
      Switch(LocalService, now);
    }
  }
}
