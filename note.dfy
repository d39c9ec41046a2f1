/**
 * The Note entity (notes_frontend/src/services/NotesService.js), the partial
 * updates an editor sends, the errors the services throw, and the array
 * helpers (`findIndex`, `find`, `filter` by id) the services use on notes.
 */
module NoteModel {
  import opened Wrappers

  /** `{ id, title, content, updatedAt, createdAt }`; timestamps are epoch milliseconds. */
  datatype Note = Note(id: string, title: string, content: string, createdAt: int, updatedAt: int)

  /** The partial note an editor sends to `update(id, patch)`: `{ title }`, `{ content }` or both. */
  datatype Patch = Patch(title: Option<string>, content: Option<string>)

  /** What the services throw. */
  datatype Error =
    | NoteNotFound         // `new Error("Note not found")` in LocalNotesService.update
    | NoteNotFoundLocally  // `new Error("Note not found locally")` in ApiNotesService.update
    | TypeError            // reading a property of `null`, or calling `push` on it

  /** `s || ""`: a missing (or empty) string becomes the empty string. */
  function OrEmpty(s: Option<string>): string {
    if s.Some? then s.value else ""
  }

  /** `{ ...n, ...p }`: the fields present in the patch override those of the note. */
  function Merge(n: Note, p: Patch): Note {
    n.(title := if p.title.Some? then p.title.value else n.title,
       content := if p.content.Some? then p.content.value else n.content)
  }

  /** Some note of `s` has identifier `id` (`s.find(n => n.id === id)` is truthy). */
  predicate HasId(s: seq<Note>, id: string) {
    exists i :: 0 <= i < |s| && s[i].id == id
  }

  /** `s.findIndex(n => n.id === id)`: the first position holding `id`, or -1. */
  function IndexOf(s: seq<Note>, id: string): (r: int)
    ensures -1 <= r < |s|
    ensures r == -1 <==> !HasId(s, id)
    ensures r >= 0 ==> s[r].id == id && forall i :: 0 <= i < r ==> s[i].id != id
  {
    if s == [] then -1
    else if s[0].id == id then 0
    else
      var k := IndexOf(s[1..], id);
      if k == -1 then -1 else k + 1
  }

  /** `s.filter(n => n.id !== id)`. */
  function RemoveId(s: seq<Note>, id: string): (r: seq<Note>)
    ensures |r| <= |s|
    ensures !HasId(r, id)
    ensures forall n {:trigger n in r} :: n in r <==> n in s && n.id != id
    ensures !HasId(s, id) ==> r == s
  {
    if s == [] then []
    else if s[0].id == id then RemoveId(s[1..], id)
    else [s[0]] + RemoveId(s[1..], id)
  }

  /** `filter` is decided note by note: a single note is dropped exactly when
      it has the id, and the result for a concatenation is the concatenation
      of the results, so the kept notes keep their order and multiplicity. */
  lemma RemoveIdIsFilter(a: seq<Note>, b: seq<Note>, n: Note, id: string)
    ensures RemoveId([n], id) == (if n.id == id then [] else [n])
    ensures RemoveId(a + b, id) == RemoveId(a, id) + RemoveId(b, id)
  {
    RemoveIdOne(n, id);
    RemoveIdAppend(a, b, id);
  }

  lemma RemoveIdOne(n: Note, id: string)
    ensures RemoveId([n], id) == (if n.id == id then [] else [n])
  {
    assert [n][1..] == [];
  }

  lemma {:induction false} RemoveIdAppend(a: seq<Note>, b: seq<Note>, id: string)
    ensures RemoveId(a + b, id) == RemoveId(a, id) + RemoveId(b, id)
    decreases |a|
  {
    if a == [] {
      assert a + b == b;
    } else {
      var ab := a + b;
      assert ab[0] == a[0] && ab[1..] == a[1..] + b;
      var head := RemoveId([a[0]], id);
      RemoveIdCons(ab, id);
      RemoveIdCons(a, id);
      RemoveIdAppend(a[1..], b, id);
      assert head + (RemoveId(a[1..], id) + RemoveId(b, id)) == (head + RemoveId(a[1..], id)) + RemoveId(b, id);
    }
  }

  lemma RemoveIdCons(s: seq<Note>, id: string)
    requires s != []
    ensures RemoveId(s, id) == RemoveId([s[0]], id) + RemoveId(s[1..], id)
  {
    RemoveIdOne(s[0], id);
  }
}
