/** The three functions of Go's strings package that the core relies on:
    strings.Index, strings.Replace with a count of one, and strings.Join. */
module Strings {
  import opened Wrappers

  /** `p` occurs in `s` starting at index `i`. */
  predicate OccursAt(s: string, p: string, i: nat) {
    i + |p| <= |s| && s[i..i + |p|] == p
  }

  predicate Contains(s: string, p: string) {
    exists i: nat :: i <= |s| && OccursAt(s, p, i)
  }

  /** strings.Index: the first index at which `p` occurs in `s`, or None. */
  function Index(s: string, p: string): (r: Option<nat>)
    ensures r.Some? ==> OccursAt(s, p, r.value)
    ensures r.Some? ==> forall j: nat :: j < r.value ==> !OccursAt(s, p, j)
    ensures r.None? <==> !Contains(s, p)
  {
    IndexFrom(s, p, 0)
  }

  function IndexFrom(s: string, p: string, start: nat): (r: Option<nat>)
    requires start <= |s| + 1
    ensures r.Some? ==> start <= r.value && OccursAt(s, p, r.value)
    ensures r.Some? ==> forall j: nat :: start <= j < r.value ==> !OccursAt(s, p, j)
    ensures r.None? ==> forall j: nat :: start <= j ==> !OccursAt(s, p, j)
    decreases |s| + 1 - start
  {
    if start + |p| > |s| then None
    else if s[start..start + |p|] == p then Some(start)
    else IndexFrom(s, p, start + 1)
  }

  /** strings.Replace(s, target, replacement, 1): the first occurrence of `target`, if any, becomes `replacement`. */
  function ReplaceFirst(s: string, target: string, replacement: string): (r: string)
    ensures !Contains(s, target) ==> r == s
    ensures Contains(s, target) ==>
      exists i: nat :: OccursAt(s, target, i) && (forall j: nat :: j < i ==> !OccursAt(s, target, j))
                       && r == s[..i] + replacement + s[i + |target|..]
  {
    match Index(s, target)
    case None => s
    case Some(i) => s[..i] + replacement + s[i + |target|..]
  }

  /** strings.Join: the parts with `sep` between consecutive ones. */
  function Join(parts: seq<string>, sep: string): (r: string)
    decreases |parts|
  {
    if parts == [] then ""
    else if |parts| == 1 then parts[0]
    else parts[0] + sep + Join(parts[1..], sep)
  }

  /** Joining one part gives that part; two parts, the parts around the separator. */
  lemma JoinSmall(a: string, b: string, sep: string)
    ensures Join([a], sep) == a
    ensures Join([a, b], sep) == a + sep + b
  {
  }
}
