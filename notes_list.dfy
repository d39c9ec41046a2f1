/**
 * NotesList.jsx: the order the list is displayed in and the keyboard rule of
 * `onKeyDown` (ArrowDown/ArrowUp move the selection, clamped at the ends;
 * Ctrl/Meta+K focuses the search field).
 */
module NotesListView {
  import opened Wrappers
  import opened NoteModel
  import opened Ordering
  import opened Text

  /** The list as displayed: the notes newest first. */
  function DisplayOrder(notes: seq<Note>): (r: seq<Note>)
    ensures SortedDesc(r)
    ensures multiset(r) == multiset(notes) && |r| == |notes|
  {
    SortDescFacts(notes);
    SortDescPermutes(notes);
    SortDesc(notes)
  }

  datatype KeyEvent = KeyEvent(key: string, metaKey: bool, ctrlKey: bool)

  /** What a key press does: the id passed to `selectNote`, whether the search
      field is focused, and whether the browser's default is prevented. */
  datatype KeyEffect = KeyEffect(select: Option<string>, focusSearch: bool, preventDefault: bool)

  /** `notes.findIndex(n => n.id === state.activeId)`; no note has id `null`. */
  function ActiveIndex(notes: seq<Note>, activeId: Option<string>): (r: int)
    ensures -1 <= r < |notes|
    ensures r == -1 <==> activeId.None? || !HasId(notes, activeId.value)
    ensures r >= 0 ==> notes[r].id == activeId.value
  {
    if activeId.None? then -1 else IndexOf(notes, activeId.value)
  }

  predicate IsArrow(key: string) {
    key == "ArrowDown" || key == "ArrowUp"
  }

  /** The note an arrow key moves to: `notes[Math.min(idx + 1, n - 1)]` for
      ArrowDown, `notes[Math.max(idx - 1, 0)]` for ArrowUp, and nothing when
      that is `undefined`, which happens only for an empty list. */
  function ArrowTarget(notes: seq<Note>, idx: int, down: bool): (r: Option<string>)
    requires -1 <= idx < |notes|
    ensures notes == [] ==> r == None
    ensures notes != [] && idx == -1 ==> r == Some(notes[0].id)
    ensures down && 0 <= idx < |notes| - 1 ==> r == Some(notes[idx + 1].id)
    ensures down && 0 <= idx == |notes| - 1 ==> r == Some(notes[idx].id)
    ensures !down && 0 < idx ==> r == Some(notes[idx - 1].id)
    ensures !down && idx == 0 ==> r == Some(notes[0].id)
    ensures r.Some? ==> HasId(notes, r.value)
  {
    var i := if down then (if idx + 1 < |notes| - 1 then idx + 1 else |notes| - 1)
             else (if idx - 1 > 0 then idx - 1 else 0);
    if 0 <= i < |notes| then
      assert notes[i].id == notes[i].id;
      Some(notes[i].id)
    else None
  }

  /** `onKeyDown`: the arrows select their target among the displayed notes
      and prevent the default; Ctrl/Meta+K focuses the search field; any other
      key does nothing. */
  function OnKeyDown(stateNotes: seq<Note>, activeId: Option<string>, e: KeyEvent): (r: KeyEffect)
    ensures r.preventDefault <==> IsArrow(e.key) || r.focusSearch
    ensures r.focusSearch <==> !IsArrow(e.key) && (e.metaKey || e.ctrlKey) && ToLower(e.key) == "k"
    ensures IsArrow(e.key) ==> var notes := DisplayOrder(stateNotes);
      r.select == ArrowTarget(notes, ActiveIndex(notes, activeId), e.key == "ArrowDown")
    ensures !IsArrow(e.key) ==> r.select == None
    ensures r.select.Some? ==> HasId(stateNotes, r.select.value)
  {
    var notes := DisplayOrder(stateNotes);
    if IsArrow(e.key) then
      var target := ArrowTarget(notes, ActiveIndex(notes, activeId), e.key == "ArrowDown");
      SelectedIsStored(stateNotes, notes, target);
      KeyEffect(target, false, true)
    else if (e.metaKey || e.ctrlKey) && ToLower(e.key) == "k" then
      KeyEffect(None, true, true)
    else
      KeyEffect(None, false, false)
  }

  lemma SelectedIsStored(stateNotes: seq<Note>, notes: seq<Note>, target: Option<string>)
    requires multiset(notes) == multiset(stateNotes)
    requires target.Some? ==> HasId(notes, target.value)
    ensures target.Some? ==> HasId(stateNotes, target.value)
  {
    if target.Some? {
      var i :| 0 <= i < |notes| && notes[i].id == target.value;
      assert notes[i] in multiset(stateNotes);
      var j :| 0 <= j < |stateNotes| && stateNotes[j] == notes[i];
    }
  }

  /** No two listed notes share an id. */
  predicate UniqueIds(s: seq<Note>) {
    forall i, j :: 0 <= i < j < |s| ==> s[i].id != s[j].id
  }

  /** Away from the last note, ArrowDown followed by ArrowUp returns to the
      note that was selected. */
  lemma DownThenUp(stateNotes: seq<Note>, activeId: string)
    requires UniqueIds(DisplayOrder(stateNotes))
    requires 0 <= ActiveIndex(DisplayOrder(stateNotes), Some(activeId)) < |stateNotes| - 1
    ensures var down := OnKeyDown(stateNotes, Some(activeId), KeyEvent("ArrowDown", false, false));
      down.select.Some? && OnKeyDown(stateNotes, down.select, KeyEvent("ArrowUp", false, false)).select == Some(activeId)
  {
    var notes := DisplayOrder(stateNotes);
    var idx := ActiveIndex(notes, Some(activeId));
    var next := Some(notes[idx + 1].id);
    assert IsArrow("ArrowDown") && IsArrow("ArrowUp") && "ArrowUp" != "ArrowDown";
    assert OnKeyDown(stateNotes, Some(activeId), KeyEvent("ArrowDown", false, false)).select == next;
    assert ActiveIndex(notes, next) == idx + 1;
    assert ArrowTarget(notes, idx + 1, false) == Some(activeId);
  }
}
