/**
 * The two JavaScript string queries the diagnostic pass relies on,
 * `String.prototype.includes` and `String.prototype.indexOf`, over
 * strings seen as sequences of characters.
 */
module JsStrings {

  /** `pattern` occurs in `text` starting at position `k`. */
  predicate OccursAt(text: string, pattern: string, k: int)
  {
    0 <= k && k + |pattern| <= |text| && text[k..k + |pattern|] == pattern
  }

  /** `k` is the leftmost position at which `pattern` occurs in `text`. */
  predicate FirstOccurrence(text: string, pattern: string, k: int)
  {
    OccursAt(text, pattern, k) && forall j :: 0 <= j < k ==> !OccursAt(text, pattern, j)
  }

  /** `text.includes(pattern)`: the pattern occurs somewhere. */
  predicate Includes(text: string, pattern: string)
  {
    exists k | 0 <= k <= |text| - |pattern| :: OccursAt(text, pattern, k)
  }

  /** `text.indexOf(pattern, from)`: the leftmost occurrence at or after `from`, or -1. */
  function IndexOfFrom(text: string, pattern: string, from: nat): (i: int)
    decreases |text| - from
    ensures i == -1 || (from <= i && OccursAt(text, pattern, i))
    ensures i == -1 ==> forall k :: from <= k ==> !OccursAt(text, pattern, k)
    ensures i != -1 ==> forall k :: from <= k < i ==> !OccursAt(text, pattern, k)
  {
    if |text| < from + |pattern| then -1
    else if OccursAt(text, pattern, from) then from
    else IndexOfFrom(text, pattern, from + 1)
  }

  /** `text.indexOf(pattern)`: -1 exactly when `includes` is false, else the first occurrence. */
  function IndexOf(text: string, pattern: string): (i: int)
    ensures i >= 0 <==> Includes(text, pattern)
    ensures i >= 0 ==> FirstOccurrence(text, pattern, i)
    ensures i < 0 ==> i == -1
  {
    IndexOfFrom(text, pattern, 0)
  }
}
