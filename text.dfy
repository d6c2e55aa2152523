/** The optional value type and the few Python string operations the
    storage backend relies on: `str.find`, `str.replace(old, new, 1)` with an empty
    replacement, and `str.replace('\\', '/')`. */
module Text {

  datatype Option<+T> = None | Some(value: T)

  /** `pat` occurs in `s` starting at index `i`. */
  predicate OccursAt(s: string, pat: string, i: nat)
  {
    i + |pat| <= |s| && s[i..i + |pat|] == pat
  }

  /** Python's `s.find(pat, i)`: the first index at or after `i` where `pat`
      occurs, or None. */
  function FindFrom(s: string, pat: string, i: nat): (r: Option<nat>)
    requires i <= |s|
    ensures r.Some? ==> i <= r.value && OccursAt(s, pat, r.value)
    ensures r.Some? ==> forall j :: i <= j < r.value ==> !OccursAt(s, pat, j)
    ensures r.None? ==> forall j :: i <= j <= |s| ==> !OccursAt(s, pat, j)
    decreases |s| - i
  {
    if i + |pat| > |s| then None
    else if s[i..i + |pat|] == pat then Some(i)
    else FindFrom(s, pat, i + 1)
  }

  /** Python's `s.find(pat)`. */
  function Find(s: string, pat: string): (r: Option<nat>)
    ensures r.Some? ==> OccursAt(s, pat, r.value)
    ensures r.Some? ==> forall j :: 0 <= j < r.value ==> !OccursAt(s, pat, j)
    ensures r.None? ==> forall j :: 0 <= j <= |s| ==> !OccursAt(s, pat, j)
  {
    FindFrom(s, pat, 0)
  }

  /** Python's `s.replace(pat, '', 1)`: the first occurrence of `pat` is cut
      out; a string without one comes back unchanged. */
  function RemoveFirst(s: string, pat: string): (r: string)
    ensures Find(s, pat).None? ==> r == s
    ensures Find(s, pat).Some? ==> |r| == |s| - |pat|
  {
    match Find(s, pat)
    case None => s
    case Some(i) => s[..i] + s[i + |pat|..]
  }

  /** The cut is made at the first occurrence of `pat`: the text before it
      is kept, and the text after it follows directly. */
  lemma RemoveFirstCutsFirstOccurrence(s: string, pat: string, i: nat)
    requires OccursAt(s, pat, i)
    requires forall j :: 0 <= j < i ==> !OccursAt(s, pat, j)
    ensures |RemoveFirst(s, pat)| == |s| - |pat|
    ensures RemoveFirst(s, pat)[..i] == s[..i]
    ensures RemoveFirst(s, pat)[i..] == s[i + |pat|..]
  {
    var f := Find(s, pat);
    assert f.Some? && f.value == i;
    var r := s[..i] + s[i + |pat|..];
    assert RemoveFirst(s, pat) == r;
    assert r[..i] == s[..i];
    assert r[i..] == s[i + |pat|..];
  }

  /** A string that starts with `pat` loses exactly that prefix. */
  lemma RemoveFirstPrefix(pat: string, rest: string)
    ensures RemoveFirst(pat + rest, pat) == rest
  {
    var s := pat + rest;
    assert s[..|pat|] == pat;
    assert OccursAt(s, pat, 0);
    var f := Find(s, pat);
    assert f.Some? && f.value == 0;
    assert s[|pat|..] == rest;
  }

  /** A string without any occurrence of the single character `c` is left
      unchanged by removing it. */
  lemma RemoveFirstAbsent(s: string, c: char)
    requires c !in s
    ensures RemoveFirst(s, [c]) == s
  {
    forall j | 0 <= j < |s|
      ensures !OccursAt(s, [c], j)
    {
      assert s[j..j + 1][0] == s[j];
    }
  }

  /** Python's `s.replace('\\', '/')`: every backslash becomes a slash. */
  function SlashSeparators(s: string): (r: string)
    ensures |r| == |s|
    ensures '\\' !in r
    ensures forall i :: 0 <= i < |s| && s[i] != '\\' ==> r[i] == s[i]
    ensures forall i :: 0 <= i < |s| && s[i] == '\\' ==> r[i] == '/'
  {
    if s == [] then []
    else [if s[0] == '\\' then '/' else s[0]] + SlashSeparators(s[1..])
  }

  /** Rewriting separators twice is the same as rewriting them once. */
  lemma SlashSeparatorsIdempotent(s: string)
    ensures SlashSeparators(SlashSeparators(s)) == SlashSeparators(s)
  {
    var t := SlashSeparators(s);
    var u := SlashSeparators(t);
    assert forall i :: 0 <= i < |t| ==> t[i] != '\\';
    assert forall i :: 0 <= i < |u| ==> u[i] == t[i];
  }
}
