/**
 * The two JavaScript string operations the request authenticators use on
 * the `Authorization` header: `startsWith` and `replace` with a string
 * pattern, which replaces the first occurrence only.
 */
module JsString {
  import opened Wrappers

  /** `s.startsWith(prefix)`: case-sensitive, character by character. */
  predicate StartsWith(s: string, prefix: string) {
    |prefix| <= |s| && s[..|prefix|] == prefix
  }

  /** `pat` occurs in `s` starting at index `j`. */
  predicate OccursAt(s: string, pat: string, j: int) {
    0 <= j && j + |pat| <= |s| && s[j..j + |pat|] == pat
  }

  /**
   * The search `replace` performs: the first occurrence of `pat` at or
   * after `from` (unlike `indexOf`, no clamping when `from` is past the end).
   */
  function IndexOfFrom(s: string, pat: string, from: nat): (r: Option<nat>)
    decreases |s| - from
    ensures r.Some? ==> from <= r.value && OccursAt(s, pat, r.value)
    ensures r.Some? ==> forall j :: from <= j < r.value ==> !OccursAt(s, pat, j)
    ensures r.None? ==> forall j :: from <= j ==> !OccursAt(s, pat, j)
  {
    if from + |pat| > |s| then None
    else if s[from..from + |pat|] == pat then Some(from)
    else IndexOfFrom(s, pat, from + 1)
  }

  /** `s.replace(pat, rep)` for a string pattern and a replacement without `$` patterns: only the first occurrence is replaced. */
  function ReplaceFirst(s: string, pat: string, rep: string): (r: string)
    ensures (forall j :: !OccursAt(s, pat, j)) ==> r == s
    ensures StartsWith(s, pat) ==> r == rep + s[|pat|..]
  {
    match IndexOfFrom(s, pat, 0)
    case None => s
    case Some(i) => s[..i] + rep + s[i + |pat|..]
  }

  /** Replacing a leading prefix by nothing strips exactly that prefix. */
  lemma StripPrefix(prefix: string, rest: string)
    ensures StartsWith(prefix + rest, prefix)
    ensures ReplaceFirst(prefix + rest, prefix, "") == rest
  {
  }
}
