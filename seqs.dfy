/** Python list operations used by the core, on Dafny sequences. */
module Seqs {

  function Min(a: int, b: int): int { if a <= b then a else b }

  /**
   * Python's slice `s[-n:]`. For `n > 0` it keeps the last `n` elements (all of them when
   * there are fewer); for `n == 0` it keeps everything, because `-0 == 0`; for `n < 0` it
   * drops the first `-n` elements.
   */
  function TailSlice<T>(s: seq<T>, n: int): (r: seq<T>)
    ensures n > 0 ==> |r| == Min(n, |s|) && r == s[|s| - |r|..]
    ensures n == 0 ==> r == s
    ensures n < 0 ==> r == s[Min(-n, |s|)..]
  {
    if n > 0 then
      if n >= |s| then s else s[|s| - n..]
    else if n == 0 then
      s
    else
      if -n >= |s| then [] else s[-n..]
  }

  /**
   * Keeping the last `n` of a list that grows by one element: append to the kept suffix and
   * drop its first element when it has grown past `n`.
   */
  lemma TailSliceSnoc<T>(s: seq<T>, x: T, n: int)
    requires n >= 1
    ensures var a := TailSlice(s, n) + [x];
            TailSlice(s + [x], n) == if |a| > n then a[1..] else a
  {
    var a := TailSlice(s, n) + [x];
    if |s| >= n {
      assert a[1..] == s[|s| - n + 1..] + [x];
      assert (s + [x])[|s| + 1 - n..] == s[|s| + 1 - n..] + [x];
    }
  }

  /** The position of the first occurrence of `x` (Python's `list.index`). */
  function IndexOf<T(==)>(s: seq<T>, x: T): (i: nat)
    requires x in s
    ensures i < |s| && s[i] == x && x !in s[..i]
  {
    if s[0] == x then 0 else 1 + IndexOf(s[1..], x)
  }

  /**
   * Python's `list.remove(x)` on a list known to hold `x`, or no change when it does not
   * (every call site in the core checks membership first).
   */
  function RemoveFirst<T(==)>(s: seq<T>, x: T): (r: seq<T>)
    ensures x !in s ==> r == s
    ensures x in s ==> r == s[..IndexOf(s, x)] + s[IndexOf(s, x) + 1..]
  {
    if x in s then s[..IndexOf(s, x)] + s[IndexOf(s, x) + 1..] else s
  }

  /** Removing the first occurrence takes exactly one copy of `x` out of the multiset. */
  lemma RemoveFirstMultiset<T>(s: seq<T>, x: T)
    requires x in s
    ensures |RemoveFirst(s, x)| == |s| - 1
    ensures multiset(RemoveFirst(s, x)) == multiset(s) - multiset{x}
  {
    var i := IndexOf(s, x);
    assert s == s[..i] + [x] + s[i + 1..];
  }
}
