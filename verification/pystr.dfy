/** Python string operations used by the checkbox page, over `seq<char>`. */
module PyStr {

  /** `s.startswith(p)` */
  predicate StartsWith(s: string, p: string)
    ensures StartsWith(s, p) <==> |p| <= |s| && s[..|p|] == p
  {
    p <= s
  }

  /** `p in s`: `p` occurs somewhere in `s` as a contiguous substring. */
  predicate Occurs(p: string, s: string)
    decreases |s|
  {
    p <= s || (s != [] && Occurs(p, s[1..]))
  }

  /**
   * `s.replace(p, '')`: scans `s` from the left and drops every occurrence of
   * `p` it meets, resuming after each dropped occurrence (so occurrences never
   * overlap). An empty `p` leaves `s` as it is.
   */
  function RemoveAll(s: string, p: string): (r: string)
    ensures |r| <= |s|
    ensures !Occurs(p, s) ==> r == s
    decreases |s|
  {
    if p == [] || s == [] then s
    else if p <= s then RemoveAll(s[|p|..], p)
    else [s[0]] + RemoveAll(s[1..], p)
  }

  /** A leading occurrence of `p` is dropped and the scan goes on with the rest. */
  lemma RemoveAllLeading(p: string, c: string)
    ensures RemoveAll(p + c, p) == RemoveAll(c, p)
  {
  }
}
