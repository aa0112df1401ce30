/** The handful of Go string and path helpers the core relies on
    (strings.Index, strings.Contains, strings.Replace with n = 1, strings.Split(..)[0],
    filepath.Base, path.Dir, path.Join), over `string` as a sequence of characters. */
module Strs {

  /** `sub` occurs in `s` starting at index `i`. */
  predicate OccursAt(s: string, sub: string, i: int) {
    0 <= i && i + |sub| <= |s| && s[i..i + |sub|] == sub
  }

  /** strings.Index: the first index at which `sub` occurs in `s`, or -1. */
  function IndexOf(s: string, sub: string): (r: int)
    ensures r == -1 || OccursAt(s, sub, r)
    ensures r == -1 ==> forall i :: !OccursAt(s, sub, i)
    ensures r >= 0 ==> forall i :: 0 <= i < r ==> !OccursAt(s, sub, i)
    decreases |s|
  {
    if |s| < |sub| then
      -1
    else if s[..|sub|] == sub then
      0
    else
      var j := IndexOf(s[1..], sub);
      ShiftOccurs(s, sub);
      if j < 0 then -1 else j + 1
  }

  /** Occurrences in `s[1..]` are the occurrences in `s` moved one place left. */
  lemma ShiftOccurs(s: string, sub: string)
    requires |s| > 0
    ensures forall i :: 1 <= i ==> (OccursAt(s, sub, i) <==> OccursAt(s[1..], sub, i - 1))
  {
    forall i | 1 <= i
      ensures OccursAt(s, sub, i) <==> OccursAt(s[1..], sub, i - 1)
    {
      if i + |sub| <= |s| {
        assert s[1..][i - 1..i - 1 + |sub|] == s[i..i + |sub|];
      }
    }
  }

  /** strings.Contains. */
  predicate Contains(s: string, sub: string) {
    IndexOf(s, sub) >= 0
  }

  /** strings.Replace(s, pat, rep, 1), scanning left to right as Go does. An empty `pat`
      matches at the very beginning. */
  function ReplaceFirst(s: string, pat: string, rep: string): string
    decreases |s|
  {
    if |s| < |pat| then s
    else if s[..|pat|] == pat then rep + s[|pat|..]
    else [s[0]] + ReplaceFirst(s[1..], pat, rep)
  }

  /** ReplaceFirst rewrites exactly the first occurrence of `pat` and nothing else:
      the text before it and after it is kept, and a string without `pat` is unchanged. */
  lemma {:induction false} ReplaceFirstAtFirstOccurrence(s: string, pat: string, rep: string)
    ensures var i := IndexOf(s, pat);
      ReplaceFirst(s, pat, rep) == if i < 0 then s else s[..i] + rep + s[i + |pat|..]
  {
    var i := IndexOf(s, pat);
    if i < 0 {
      ReplaceFirstWithout(s, pat, rep);
    } else {
      ReplaceFirstAt(s, pat, rep, i);
    }
  }

  /** Without an occurrence of `pat`, ReplaceFirst changes nothing. */
  lemma {:induction false} ReplaceFirstWithout(s: string, pat: string, rep: string)
    requires IndexOf(s, pat) < 0
    ensures ReplaceFirst(s, pat, rep) == s
    decreases |s|
  {
    if |s| >= |pat| {
      IndexOfStep(s, pat);
      ReplaceFirstWithout(s[1..], pat, rep);
      ReplaceFirstStep(s, pat, rep);
      assert [s[0]] + s[1..] == s;
    }
  }

  /** With the first occurrence of `pat` at `i`, ReplaceFirst rewrites it and keeps the rest. */
  lemma {:induction false} ReplaceFirstAt(s: string, pat: string, rep: string, i: nat)
    requires IndexOf(s, pat) == i
    ensures i + |pat| <= |s| && ReplaceFirst(s, pat, rep) == s[..i] + rep + s[i + |pat|..]
    decreases |s|
  {
    if s[..|pat|] == pat {
      assert s[..0] + rep + s[|pat|..] == rep + s[|pat|..];
    } else {
      IndexOfStep(s, pat);
      ReplaceFirstAt(s[1..], pat, rep, i - 1);
      ReplaceFirstStep(s, pat, rep);
      ReplaceShift(s, |pat|, rep, i);
    }
  }

  /** ReplaceFirst past a non-matching first position. */
  lemma ReplaceFirstStep(s: string, pat: string, rep: string)
    requires |s| >= |pat| && s[..|pat|] != pat
    ensures ReplaceFirst(s, pat, rep) == [s[0]] + ReplaceFirst(s[1..], pat, rep)
  {
  }

  /** IndexOf past a non-matching first position. */
  lemma IndexOfStep(s: string, sub: string)
    requires |s| >= |sub| && s[..|sub|] != sub
    ensures var j := IndexOf(s[1..], sub); IndexOf(s, sub) == if j < 0 then -1 else j + 1
  {
  }

  /** Putting the first character back in front of a replacement made in `s[1..]`. */
  lemma ReplaceShift(s: string, n: nat, rep: string, i: nat)
    requires 0 < i && i + n <= |s|
    ensures [s[0]] + (s[1..][..i - 1] + rep + s[1..][i - 1 + n..]) == s[..i] + rep + s[i + n..]
  {
    assert s[1..][..i - 1] == s[1..i];
    assert s[1..][i - 1 + n..] == s[i + n..];
    assert [s[0]] + s[1..i] == s[..i];
  }

  /** strings.Split(s, [c])[0]: the part of `s` before the first `c` (all of `s` if none). */
  function BeforeFirst(s: string, c: char): (r: string)
    ensures r <= s && c !in r
    ensures |r| < |s| ==> s[|r|] == c
  {
    if s == [] then []
    else if s[0] == c then []
    else [s[0]] + BeforeFirst(s[1..], c)
  }

  /** The index of the last `c` in `s`, or -1 (strings.LastIndex over one character). */
  function LastIndexOf(s: string, c: char): (r: int)
    ensures -1 <= r < |s|
    ensures r >= 0 ==> s[r] == c && c !in s[r + 1..]
    ensures r == -1 ==> c !in s
  {
    if s == [] then -1
    else if s[|s| - 1] == c then |s| - 1
    else
      var r := LastIndexOf(s[..|s| - 1], c);
      assert s == s[..|s| - 1] + [s[|s| - 1]];
      r
  }

  /** `s` without its trailing '/' characters. */
  function TrimTrailingSlashes(s: string): (r: string)
    ensures r <= s
    ensures r == [] || r[|r| - 1] != '/'
    ensures forall k :: |r| <= k < |s| ==> s[k] == '/'
  {
    if s != [] && s[|s| - 1] == '/' then TrimTrailingSlashes(s[..|s| - 1]) else s
  }

  /** filepath.Base on a slash-separated path: the last element, after trailing
      slashes are removed; "." for the empty path and "/" for a path of slashes only. */
  function BaseName(p: string): (r: string)
    ensures r != "" && (r == "/" || '/' !in r)
    ensures p != [] && '/' !in p ==> r == p
  {
    if p == [] then "."
    else
      var t := TrimTrailingSlashes(p);
      if t == [] then "/" else AfterLastSlash(t)
  }

  /** The part of `t` after its last '/' (all of `t` when it has none). */
  function AfterLastSlash(t: string): string {
    t[LastIndexOf(t, '/') + 1..]
  }

  /** path.Dir: everything before the last element, without its trailing slashes;
      "." when there is no slash and "/" for a root-level name. */
  function Dir(p: string): (r: string)
    ensures '/' !in p ==> r == "."
    ensures r != "" && (r == "/" || r == "." || (|r| < |p| && r == p[..|r|] && r[|r| - 1] != '/'))
  {
    var i := LastIndexOf(p, '/');
    if i < 0 then "."
    else
      var d := TrimTrailingSlashes(p[..i]);
      if d == [] then "/" else d
  }

  /** path.Join / filepath.Join: the non-empty elements separated by single slashes. */
  function Join(parts: seq<string>): (r: string)
    decreases |parts|
  {
    if parts == [] then ""
    else
      var init := Join(parts[..|parts| - 1]);
      var last := parts[|parts| - 1];
      if last == "" then init
      else if init == "" then last
      else init + "/" + last
  }

  /** A join is empty exactly when every element is. */
  lemma {:induction false} JoinEmptyIff(parts: seq<string>)
    ensures Join(parts) == "" <==> forall k :: 0 <= k < |parts| ==> parts[k] == ""
    decreases |parts|
  {
    if parts != [] {
      var init := parts[..|parts| - 1];
      JoinEmptyIff(init);
      assert forall k :: 0 <= k < |init| ==> init[k] == parts[k];
      var last := parts[|parts| - 1];
      if last != "" && Join(init) != "" {
        assert |Join(init) + "/" + last| > 0;
      }
    }
  }

  /** The last '/' of `s` is at `k` when no '/' follows it. */
  lemma LastSlashAt(s: string, k: nat)
    requires k < |s| && s[k] == '/' && '/' !in s[k + 1..]
    ensures LastIndexOf(s, '/') == k
  {
  }

  /** No two consecutive slashes. */
  predicate SingleSlashes(p: string) {
    forall k :: 0 <= k < |p| - 1 ==> !(p[k] == '/' && p[k + 1] == '/')
  }

  /** Dir of a path whose last slash is preceded by something other than a slash. */
  lemma DirBeforeLastSlash(p: string, i: nat)
    requires i == LastIndexOf(p, '/') && i > 0 && p[i - 1] != '/'
    ensures Dir(p) == p[..i]
  {
    assert p[..i][i - 1] != '/';
  }

  /** BaseName of a path without a trailing slash: everything after its last slash. */
  lemma BaseAfterLastSlash(p: string)
    requires p != [] && p[|p| - 1] != '/'
    ensures BaseName(p) == AfterLastSlash(p)
  {
    TrimWithoutTrailingSlash(p);
  }

  lemma TrimWithoutTrailingSlash(p: string)
    requires p != [] && p[|p| - 1] != '/'
    ensures TrimTrailingSlashes(p) == p
  {
  }

  /** Dir and BaseName split a path at its last slash: for a path with single slashes,
      no trailing slash and a slash after its first character, putting the two back
      together with a '/' gives the path again. */
  lemma DirBaseSplit(p: string)
    requires p != [] && p[|p| - 1] != '/' && SingleSlashes(p)
    requires LastIndexOf(p, '/') > 0
    ensures Dir(p) + "/" + BaseName(p) == p
  {
    var i := LastIndexOf(p, '/');
    assert p[i] == '/';
    assert p[i - 1] != '/';
    DirBeforeLastSlash(p, i);
    BaseAfterLastSlash(p);
    SplitAtSlash(p, i);
  }

  lemma SplitAtSlash(p: string, i: nat)
    requires i < |p| && p[i] == '/'
    ensures p[..i] + "/" + p[i + 1..] == p
  {
  }

  /** Joining a directory and a name, then taking Dir and BaseName, gives them back. */
  lemma DirBaseOfJoin(dir: string, name: string)
    requires dir != "" && dir[|dir| - 1] != '/'
    requires name != "" && '/' !in name
    ensures Join([dir, name]) == dir + "/" + name
    ensures Dir(Join([dir, name])) == dir && BaseName(Join([dir, name])) == name
  {
    assert [dir, name][..1] == [dir];
    assert Join([dir]) == dir by {
      assert [dir][..0] == [];
    }
    var p := dir + "/" + name;
    assert p[|dir| + 1..] == name;
    LastSlashAt(p, |dir|);
    assert p[..|dir|] == dir;
    assert TrimTrailingSlashes(p) == p;
  }
}
