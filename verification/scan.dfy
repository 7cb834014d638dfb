/** Python's `re.search`: try the pattern anchored at each position of the text from
    left to right and report the first position where it matches. Each pattern of the
    extractor is an anchored matcher `(text, position) -> Option<groups>` whose own
    definition follows the pattern's backtracking order at that one position. */
module Scan {

  datatype Option<T> = None | Some(value: T)

  /** A successful search: where the match starts and what the matcher captured. */
  datatype Found<T> = Found(at: nat, value: T)

  /** The leftmost position `p` in `from..|s|` at which `m(s, p)` matches. */
  function First<T>(s: string, from: nat, m: (string, nat) -> Option<T>): (r: Option<Found<T>>)
    ensures r.Some? ==> from <= r.value.at <= |s| && m(s, r.value.at) == Some(r.value.value)
    ensures r.Some? ==> forall p :: from <= p < r.value.at ==> m(s, p).None?
    ensures r.None? <==> forall p :: from <= p <= |s| ==> m(s, p).None?
    decreases |s| + 1 - from
  {
    if from > |s| then None
    else match m(s, from)
      case Some(v) => Some(Found(from, v))
      case None => First(s, from + 1, m)
  }

  /** Python's `re.search(pattern, s)`. */
  function Search<T>(s: string, m: (string, nat) -> Option<T>): (r: Option<Found<T>>)
    ensures r.Some? ==> r.value.at <= |s| && m(s, r.value.at) == Some(r.value.value)
    ensures r.Some? ==> forall p :: 0 <= p < r.value.at ==> m(s, p).None?
    ensures r.None? <==> forall p :: 0 <= p <= |s| ==> m(s, p).None?
  {
    First(s, 0, m)
  }

  /** The search result is determined by the leftmost matching position. */
  lemma FirstAt<T>(s: string, from: nat, m: (string, nat) -> Option<T>, p: nat)
    requires from <= p <= |s| && m(s, p).Some?
    requires forall q :: from <= q < p ==> m(s, q).None?
    ensures First(s, from, m) == Some(Found(p, m(s, p).value))
  {
    var r := First(s, from, m);
    assert r.Some?;
    assert !(r.value.at < p);
  }
}
