/**
 * `re.search` semantics for the hand-coded recognisers: a recogniser tells
 * whether its pattern matches starting at a given position, and the search
 * takes the leftmost position where it does.
 */
module Search {
  import opened Wrappers

  datatype Hit<T> = Hit(pos: nat, value: T)

  /** The leftmost position `j >= i` (up to `|s|`) at which `at` matches. */
  function First<T>(s: string, i: nat, at: (string, nat) -> Option<T>): (h: Option<Hit<T>>)
    ensures h.Some? ==> i <= h.value.pos <= |s| && at(s, h.value.pos) == Some(h.value.value)
    ensures h.Some? ==> forall k :: i <= k < h.value.pos ==> at(s, k).None?
    ensures h.None? ==> forall k :: i <= k <= |s| ==> at(s, k).None?
    decreases |s| + 1 - i
  {
    if i > |s| then None
    else match at(s, i)
      case Some(v) => Some(Hit(i, v))
      case None => First(s, i + 1, at)
  }

  /**
   * The largest position `k` in `[lo, hi]` at which `at` matches: where a
   * greedy run that gives characters back one at a time first lets the rest
   * of its pattern match.
   */
  function Last<T>(s: string, lo: nat, hi: nat, at: (string, nat) -> Option<T>): (h: Option<Hit<T>>)
    ensures h.Some? ==> lo <= h.value.pos <= hi && at(s, h.value.pos) == Some(h.value.value)
    ensures h.Some? ==> forall k :: h.value.pos < k <= hi ==> at(s, k).None?
    ensures h.None? ==> forall k :: lo <= k <= hi ==> at(s, k).None?
    decreases hi
  {
    if hi < lo then None
    else match at(s, hi)
      case Some(v) => Some(Hit(hi, v))
      case None => if hi == 0 then None else Last(s, lo, hi - 1, at)
  }

  /** The value of the leftmost match, as `re.search(...).group(...)` gives it. */
  function SearchValue<T>(s: string, at: (string, nat) -> Option<T>): Option<T> {
    match First(s, 0, at)
    case None => None
    case Some(h) => Some(h.value)
  }

  lemma SearchAtStart<T>(s: string, at: (string, nat) -> Option<T>, v: T)
    requires at(s, 0) == Some(v)
    ensures SearchValue(s, at) == Some(v)
  {
  }

  lemma SearchMisses<T>(s: string, at: (string, nat) -> Option<T>)
    requires forall k :: 0 <= k <= |s| ==> at(s, k).None?
    ensures SearchValue(s, at).None?
  {
  }
}
