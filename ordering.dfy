/**
 * `notes.sort((a, b) => b.updatedAt - a.updatedAt)`: newest first. ECMAScript
 * requires `Array.prototype.sort` to be stable, so notes with equal `updatedAt`
 * keep their relative order. The sort is modelled as a stable insertion sort
 * and proved ordered, a permutation, stable and idempotent.
 */
module Ordering {
  import opened NoteModel

  /** Newest first: no note is followed by a more recently updated one. */
  predicate SortedDesc(s: seq<Note>) {
    forall i, j :: 0 <= i < j < |s| ==> s[i].updatedAt >= s[j].updatedAt
  }

  /** The notes of `s` stamped `t`, in their order in `s`. */
  function WithStamp(s: seq<Note>, t: int): seq<Note> {
    if s == [] then []
    else (if s[0].updatedAt == t then [s[0]] else []) + WithStamp(s[1..], t)
  }

  /** Puts `n` before the first note that is not newer than it. */
  function Insert(n: Note, s: seq<Note>): seq<Note> {
    if s == [] || n.updatedAt >= s[0].updatedAt then [n] + s
    else [s[0]] + Insert(n, s[1..])
  }

  /** The array after `.sort((a, b) => b.updatedAt - a.updatedAt)`. */
  function SortDesc(s: seq<Note>): seq<Note> {
    if s == [] then [] else Insert(s[0], SortDesc(s[1..]))
  }

  lemma {:induction false} WithStampAppend(a: seq<Note>, b: seq<Note>, t: int)
    ensures WithStamp(a + b, t) == WithStamp(a, t) + WithStamp(b, t)
  {
    if a == [] {
      assert a + b == b;
    } else {
      assert (a + b)[0] == a[0];
      assert (a + b)[1..] == a[1..] + b;
      WithStampAppend(a[1..], b, t);
    }
  }

  /** Prepending a note no older than any note of a sorted sequence keeps it sorted. */
  lemma ConsSorted(x: Note, r: seq<Note>)
    requires SortedDesc(r)
    requires forall m :: m in r ==> m.updatedAt <= x.updatedAt
    ensures SortedDesc([x] + r)
  {
    forall i, j | 0 <= i < j < |[x] + r| ensures ([x] + r)[i].updatedAt >= ([x] + r)[j].updatedAt {
      assert ([x] + r)[j] == r[j - 1];
      if i == 0 {
        assert r[j - 1] in r;
      } else {
        assert ([x] + r)[i] == r[i - 1];
      }
    }
  }

  /** Inserting adds exactly `n`. */
  lemma {:induction false} InsertPermutes(n: Note, s: seq<Note>)
    ensures multiset(Insert(n, s)) == multiset(s) + multiset{n}
  {
    if s != [] && n.updatedAt < s[0].updatedAt {
      InsertPermutes(n, s[1..]);
      assert s == [s[0]] + s[1..];
    }
  }

  /** Inserting into a sorted sequence keeps it sorted. */
  lemma {:induction false} InsertSorted(n: Note, s: seq<Note>)
    requires SortedDesc(s)
    ensures SortedDesc(Insert(n, s))
  {
    if s == [] || n.updatedAt >= s[0].updatedAt {
      forall m | m in s ensures m.updatedAt <= n.updatedAt {
        var k :| 0 <= k < |s| && s[k] == m;
        assert s[0].updatedAt >= s[k].updatedAt;
      }
      ConsSorted(n, s);
    } else {
      var rest := Insert(n, s[1..]);
      InsertSorted(n, s[1..]);
      InsertPermutes(n, s[1..]);
      forall m | m in rest ensures m.updatedAt <= s[0].updatedAt {
        assert m in multiset(rest);
        if m != n {
          assert m in multiset(s[1..]);
          var k :| 0 <= k < |s[1..]| && s[1..][k] == m;
          assert s[0].updatedAt >= s[k + 1].updatedAt;
        }
      }
      ConsSorted(s[0], rest);
    }
  }

  /** In a sorted sequence, `n` goes ahead of every note with its stamp. */
  lemma {:induction false} InsertStamp(n: Note, s: seq<Note>, t: int)
    requires SortedDesc(s)
    ensures WithStamp(Insert(n, s), t) == (if n.updatedAt == t then [n] else []) + WithStamp(s, t)
  {
    if s == [] || n.updatedAt >= s[0].updatedAt {
      WithStampAppend([n], s, t);
    } else {
      InsertStamp(n, s[1..], t);
      WithStampAppend([s[0]], Insert(n, s[1..]), t);
      assert s == [s[0]] + s[1..];
      WithStampAppend([s[0]], s[1..], t);
    }
  }

  /** SortDesc is ordered, a permutation, and stable. */
  lemma {:induction false} SortDescFacts(s: seq<Note>)
    ensures SortedDesc(SortDesc(s))
    ensures multiset(SortDesc(s)) == multiset(s)
    ensures forall t :: WithStamp(SortDesc(s), t) == WithStamp(s, t)
  {
    if s != [] {
      SortDescFacts(s[1..]);
      InsertSorted(s[0], SortDesc(s[1..]));
      InsertPermutes(s[0], SortDesc(s[1..]));
      assert s == [s[0]] + s[1..];
      forall t ensures WithStamp(SortDesc(s), t) == WithStamp(s, t) {
        InsertStamp(s[0], SortDesc(s[1..]), t);
        WithStampAppend([s[0]], s[1..], t);
      }
    }
  }

  /** The sorted array holds the same notes, as many times each. */
  lemma SortDescPermutes(s: seq<Note>)
    ensures multiset(SortDesc(s)) == multiset(s)
    ensures |SortDesc(s)| == |s|
    ensures forall n :: n in SortDesc(s) <==> n in s
  {
    SortDescFacts(s);
    assert |multiset(SortDesc(s))| == |multiset(s)|;
    forall n ensures n in SortDesc(s) <==> n in s {
      assert n in SortDesc(s) <==> n in multiset(SortDesc(s));
    }
  }

  /** The sorted array is newest first. */
  lemma SortDescSorted(s: seq<Note>)
    ensures SortedDesc(SortDesc(s))
  {
    SortDescFacts(s);
  }

  /** Stability: the notes sharing a stamp appear in the sorted array in their original order. */
  lemma SortDescStable(s: seq<Note>, t: int)
    ensures WithStamp(SortDesc(s), t) == WithStamp(s, t)
  {
    SortDescFacts(s);
  }

  /** Sorting an array that is already newest first leaves it as it is. */
  lemma {:induction false} SortDescOfSorted(s: seq<Note>)
    requires SortedDesc(s)
    ensures SortDesc(s) == s
  {
    if s != [] {
      SortDescOfSorted(s[1..]);
      assert SortDesc(s) == Insert(s[0], s[1..]);
      assert s == [s[0]] + s[1..];
    }
  }

  /** Sorting twice is sorting once (NotesList re-sorts the already sorted session list). */
  lemma SortDescIdempotent(s: seq<Note>)
    ensures SortDesc(SortDesc(s)) == SortDesc(s)
  {
    SortDescSorted(s);
    SortDescOfSorted(SortDesc(s));
  }

  /** A note at least as new as every note of a sorted array comes first when
      prepended: `[n] + sorted` is still sorted. */
  lemma PrependNewest(n: Note, s: seq<Note>)
    requires SortedDesc(s)
    requires forall m :: m in s ==> m.updatedAt <= n.updatedAt
    ensures SortedDesc([n] + s)
    ensures SortDesc([n] + s) == [n] + s
  {
    assert forall j :: 0 <= j < |s| ==> s[j] in s;
    SortDescOfSorted([n] + s);
  }
}
