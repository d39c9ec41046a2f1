/**
 * The string operations the client applies to configuration values and to the
 * search query: ECMAScript `trim`, `toLowerCase` (ASCII letters only),
 * `includes`, and the two slash-stripping `replace` calls of env.js.
 */
module Text {

  /** ECMAScript WhiteSpace and LineTerminator code units (what `trim` removes). */
  const Spaces: set<char> := {' ', '\t', '\n', '\r', '\U{B}', '\U{C}', '\U{A0}', '\U{1680}',
    '\U{2028}', '\U{2029}', '\U{202F}', '\U{205F}', '\U{3000}', '\U{FEFF}'}

  predicate IsSpace(c: char) {
    c in Spaces || ('\U{2000}' <= c <= '\U{200A}')
  }

  function TrimStart(s: string): (r: string)
    ensures |r| <= |s| && r == s[|s| - |r|..]
    ensures r == [] || !IsSpace(r[0])
    ensures forall i :: 0 <= i < |s| - |r| ==> IsSpace(s[i])
  {
    if s != [] && IsSpace(s[0]) then TrimStart(s[1..]) else s
  }

  function TrimEnd(s: string): (r: string)
    ensures |r| <= |s| && r == s[..|r|]
    ensures r == [] || !IsSpace(r[|r| - 1])
    ensures forall i :: |r| <= i < |s| ==> IsSpace(s[i])
  {
    if s != [] && IsSpace(s[|s| - 1]) then TrimEnd(s[..|s| - 1]) else s
  }

  /** `t` occurs in `s` at position `i`. */
  predicate OccursAt(s: string, t: string, i: int) {
    0 <= i <= |s| - |t| && s[i..i + |t|] == t
  }

  /** `t` occurs somewhere in `s`. */
  ghost predicate Occurs(s: string, t: string) {
    exists i :: OccursAt(s, t, i)
  }

  /** `s` is empty or white space only. */
  predicate Blank(s: string) {
    forall i :: 0 <= i < |s| ==> IsSpace(s[i])
  }

  /** `s.trim()`. */
  function Trim(s: string): string {
    TrimEnd(TrimStart(s))
  }

  /** `trim()` leaves no white space at either end, removes only white space
      around what it keeps, and gives "" exactly for a blank string. */
  lemma TrimSpec(s: string)
    ensures var r := Trim(s);
      && (r == [] || (!IsSpace(r[0]) && !IsSpace(r[|r| - 1])))
      && Occurs(s, r)
      && (r == [] <==> Blank(s))
    ensures var r := Trim(s);
      exists k :: OccursAt(s, r, k) && Blank(s[..k]) && Blank(s[k + |r|..])
  {
    var t, r := TrimStart(s), Trim(s);
    assert (r == [] || (!IsSpace(r[0]) && !IsSpace(r[|r| - 1]))) && Occurs(s, r) && (r == [] <==> Blank(s)) by {
      TrimFacts(s, t, r);
    }
    assert exists k :: OccursAt(s, r, k) && Blank(s[..k]) && Blank(s[k + |r|..]) by {
      SpaceAround(s, t, r);
    }
  }

  lemma TrimFacts(s: string, t: string, r: string)
    requires t == TrimStart(s) && r == TrimEnd(t)
    ensures r == [] || (!IsSpace(r[0]) && !IsSpace(r[|r| - 1]))
    ensures Occurs(s, r)
    ensures r == [] <==> Blank(s)
  {
    assert OccursAt(s, r, |s| - |t|) by {
      SliceOfSlice(s, t, r);
    }
    AllSpaceIff(s, t, r);
    EndsNotSpace(t, r);
  }

  lemma SpaceAround(s: string, t: string, r: string)
    requires |t| <= |s| && t == s[|s| - |t|..]
    requires forall i :: 0 <= i < |s| - |t| ==> IsSpace(s[i])
    requires |r| <= |t| && r == t[..|r|]
    requires forall i :: |r| <= i < |t| ==> IsSpace(t[i])
    ensures exists k :: OccursAt(s, r, k) && Blank(s[..k]) && Blank(s[k + |r|..])
  {
    var k := |s| - |t|;
    SliceOfSlice(s, t, r);
    var head, tail := s[..k], s[k + |r|..];
    assert Blank(head) by {
      forall i | 0 <= i < |head| ensures IsSpace(head[i]) {
        assert head[i] == s[i];
      }
    }
    assert Blank(tail) by {
      forall i | 0 <= i < |tail| ensures IsSpace(tail[i]) {
        assert tail[i] == t[|r| + i];
      }
    }
    assert OccursAt(s, r, k) && Blank(s[..k]) && Blank(s[k + |r|..]);
  }

  lemma EndsNotSpace(t: string, r: string)
    requires t == [] || !IsSpace(t[0])
    requires r == TrimEnd(t)
    ensures r == [] || (!IsSpace(r[0]) && !IsSpace(r[|r| - 1]))
  {
    if r != [] {
      assert r[0] == t[0];
    }
  }

  lemma SliceOfSlice(s: string, t: string, r: string)
    requires |t| <= |s| && t == s[|s| - |t|..]
    requires |r| <= |t| && r == t[..|r|]
    ensures s[|s| - |t|..|s| - |t| + |r|] == r
  {
    var k := |s| - |t|;
    assert s[k..k + |r|] == s[k..][..|r|];
  }

  lemma AllSpaceIff(s: string, t: string, r: string)
    requires t == TrimStart(s) && r == TrimEnd(t)
    ensures r == [] <==> Blank(s)
  {
    var k := |s| - |t|;
    if r == [] {
      forall i | 0 <= i < |s| ensures IsSpace(s[i]) {
        if i >= k { assert s[i] == t[i - k]; }
      }
    } else {
      assert t != [] && s[k] == t[0] && !IsSpace(t[0]);
    }
  }

  /** `toLowerCase` on one character; letters outside ASCII are left out of the model. */
  function LowerChar(c: char): char {
    if 'A' <= c <= 'Z' then (c as int + 32) as char else c
  }

  /** `s.toLowerCase()` for ASCII letters. */
  function ToLower(s: string): (r: string)
    ensures |r| == |s|
    ensures forall i :: 0 <= i < |s| ==> r[i] == LowerChar(s[i])
  {
    if s == [] then [] else [LowerChar(s[0])] + ToLower(s[1..])
  }

  predicate StartsWith(s: string, t: string) {
    |t| <= |s| && s[..|t|] == t
  }

  /** `s.includes(t)`, as a scan from the left. */
  predicate Contains(s: string, t: string)
    decreases |s|
  {
    StartsWith(s, t) || (s != [] && Contains(s[1..], t))
  }

  /** The scan finds `t` exactly when `t` occurs at some position of `s`. */
  lemma {:induction false} ContainsIffOccurs(s: string, t: string)
    ensures Contains(s, t) <==> exists i :: OccursAt(s, t, i)
  {
    if StartsWith(s, t) {
      assert OccursAt(s, t, 0);
    } else if s == [] {
      forall i | OccursAt(s, t, i) ensures false {
      }
    } else {
      ContainsIffOccurs(s[1..], t);
      if Contains(s, t) {
        var i :| OccursAt(s[1..], t, i);
        assert s[1..][i..i + |t|] == s[i + 1..i + 1 + |t|];
        assert OccursAt(s, t, i + 1);
      }
      if exists i :: OccursAt(s, t, i) {
        var i :| OccursAt(s, t, i);
        if i > 0 {
          assert s[1..][i - 1..i - 1 + |t|] == s[i..i + |t|];
          assert OccursAt(s[1..], t, i - 1);
        }
      }
    }
  }

  /** `s.replace(/\/+$/, "")`: strips every trailing slash. */
  function StripTrailingSlashes(s: string): (r: string)
    ensures r == [] || r[|r| - 1] != '/'
    ensures |r| <= |s| && r == s[..|r|]
    ensures forall i :: |r| <= i < |s| ==> s[i] == '/'
  {
    if s != [] && s[|s| - 1] == '/' then StripTrailingSlashes(s[..|s| - 1]) else s
  }

  /** `s.replace(/^\/?/, "")`: removes at most one leading slash. */
  function DropLeadingSlash(s: string): (r: string)
    ensures s != [] && s[0] == '/' ==> r == s[1..]
    ensures (s == [] || s[0] != '/') ==> r == s
  {
    if s != [] && s[0] == '/' then s[1..] else s
  }
}
