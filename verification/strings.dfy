/** The few functions of Go's `strings` package that the proxy relies on.
    Go strings are byte strings; here each `char` stands for one byte. */
module Strings {

  /** `strings.HasPrefix(s, prefix)`: `prefix` is the leading part of `s`,
      that is, `s` has at least as many bytes and agrees with `prefix` on
      each of its offsets. */
  predicate HasPrefix(s: string, prefix: string)
    ensures HasPrefix(s, prefix) <==>
              |prefix| <= |s| && forall i :: 0 <= i < |prefix| ==> s[i] == prefix[i]
  {
    |prefix| <= |s| && s[..|prefix|] == prefix
  }

  /** `strings.HasSuffix(s, suffix)`: `suffix` is the trailing part of `s`. */
  predicate HasSuffix(s: string, suffix: string)
  {
    |suffix| <= |s| && s[|s| - |suffix|..] == suffix
  }

  /** `sub` occurs in `s` at byte offset `j`. */
  predicate OccursAt(s: string, sub: string, j: int)
  {
    0 <= j && j + |sub| <= |s| && s[j..j + |sub|] == sub
  }

  /** `sub` occurs somewhere in `s` (`strings.Contains`). */
  ghost predicate Occurs(s: string, sub: string)
  {
    exists j :: OccursAt(s, sub, j)
  }

  /** The first occurrence of `sub` in `s` at or after offset `i`, or -1. */
  function IndexFrom(s: string, sub: string, i: nat): (r: int)
    requires i <= |s|
    ensures r == -1 || (i <= r && OccursAt(s, sub, r))
    ensures forall j :: i <= j && (r == -1 || j < r) ==> !OccursAt(s, sub, j)
    decreases |s| - i
  {
    if |s| < i + |sub| then -1
    else if s[i..i + |sub|] == sub then i
    else IndexFrom(s, sub, i + 1)
  }

  /** `strings.Index(s, sub)`: the offset of the first occurrence of `sub`
      in `s`, or -1 when there is none. An empty `sub` is found at 0. */
  function Index(s: string, sub: string): (r: int)
    ensures r == -1 <==> !Occurs(s, sub)
    ensures r != -1 ==> OccursAt(s, sub, r) && forall j :: 0 <= j < r ==> !OccursAt(s, sub, j)
    ensures sub == "" ==> r == 0
  {
    var r := IndexFrom(s, sub, 0);
    assert sub == "" ==> OccursAt(s, sub, 0);
    r
  }
}
