/** The two string primitives the renderer relies on: `indexOf` and `replace` with a string pattern. */
module JsStrings {
  import opened Values

  /** `p` occurs in `s` starting at index `i`. */
  predicate OccursAt(s: string, p: string, i: nat) {
    i + |p| <= |s| && s[i..i + |p|] == p
  }

  /** The first occurrence of `p` at or after `from` (for `from <= |s|`, JavaScript's `s.indexOf(p, from)`). */
  function IndexOfFrom(s: string, p: string, from: nat): (r: Option<nat>)
    ensures r.Some? ==> from <= r.value && OccursAt(s, p, r.value)
    ensures forall j: nat :: from <= j && (r.Some? ==> j < r.value) ==> !OccursAt(s, p, j)
    decreases |s| - from
  {
    if from + |p| > |s| then None
    else if s[from..from + |p|] == p then Some(from)
    else IndexOfFrom(s, p, from + 1)
  }

  /** `s.indexOf(p)`: `Some(k)` for the first occurrence at `k`, `None` for JavaScript's -1. */
  function IndexOf(s: string, p: string): (r: Option<nat>)
    ensures r.Some? ==> OccursAt(s, p, r.value) && forall j: nat :: j < r.value ==> !OccursAt(s, p, j)
    ensures r.None? <==> forall j: nat :: !OccursAt(s, p, j)
  {
    IndexOfFrom(s, p, 0)
  }

  /** `s.indexOf(p) >= 0`: `p` occurs anywhere in `s`, not necessarily at the start. */
  predicate Contains(s: string, p: string) {
    IndexOf(s, p).Some?
  }

  /**
   * `s.replace(p, replacement)` for a string pattern and a replacement free of `$` patterns:
   * only the first occurrence is replaced.
   */
  function ReplaceFirst(s: string, p: string, replacement: string): (r: string)
    ensures !Contains(s, p) ==> r == s
    ensures Contains(s, p) ==> |r| == |s| - |p| + |replacement|
    ensures OccursAt(s, p, 0) ==> r == replacement + s[|p|..]
    ensures Contains(s, p) ==> exists k: nat :: OccursAt(s, p, k) && (forall j: nat :: j < k ==> !OccursAt(s, p, j)) &&
                                                r == s[..k] + replacement + s[k + |p|..]
  {
    match IndexOf(s, p)
    case None => s
    case Some(k) => s[..k] + replacement + s[k + |p|..]
  }
}
