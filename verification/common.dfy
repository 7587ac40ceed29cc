/** Small generic building blocks shared by the rest of the model: an optional value,
    Python-style slicing `s[:n]`, and the page-number ranges the collectors walk. */
module Common {

  /** A value that may be absent: a missing key, a JSON `null`, or Python's `None`. */
  datatype Option<+T> = None | Some(value: T)

  /** `s[:n]` for a non-negative `n`: the longest prefix of `s` with at most `n` elements. */
  function Take<T>(s: seq<T>, n: nat): (r: seq<T>)
    ensures r <= s
    ensures |r| == if |s| <= n then |s| else n
  {
    if |s| <= n then s else s[..n]
  }

  /** Extending a sequence that already holds `n` elements leaves its first `n` untouched. */
  lemma TakeOfLongPrefix<T>(xs: seq<T>, ys: seq<T>, n: nat)
    requires |xs| >= n
    ensures Take(xs + ys, n) == Take(xs, n)
  {
    assert (xs + ys)[..n] == xs[..n];
  }

  /** The consecutive page numbers `lo, lo + 1, ..., hi - 1`. */
  function Pages(lo: int, hi: int): (r: seq<int>)
    ensures |r| == if lo <= hi then hi - lo else 0
    ensures forall i :: 0 <= i < |r| ==> r[i] == lo + i
    decreases hi - lo
  {
    if lo >= hi then [] else [lo] + Pages(lo + 1, hi)
  }

  /** Splitting off the first page of a non-empty range. */
  lemma PagesAfter(pre: seq<int>, lo: int, hi: int)
    requires lo < hi
    ensures pre + Pages(lo, hi) == (pre + [lo]) + Pages(lo + 1, hi)
  {
    assert Pages(lo, hi) == [lo] + Pages(lo + 1, hi);
  }

  /** Moving the first element of a non-empty sequence onto what precedes it. */
  lemma FirstThenRest<T>(pre: seq<T>, items: seq<T>)
    requires items != []
    ensures (pre + [items[0]]) + items[1..] == pre + items
  {
    assert items == [items[0]] + items[1..];
  }

  function Max(a: int, b: int): int {
    if a < b then b else a
  }
}
