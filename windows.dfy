/** Recent-window selection, as JavaScript's `Array.prototype.slice(-n)` does it. */
module Windows {

  function Min(a: int, b: int): int
  {
    if a <= b then a else b
  }

  /**
    `s.slice(-n)`: the last `n` elements of `s` in their original order, or all
    of `s` when it has fewer. `-0` is `0` in JavaScript, so `s.slice(-0)` is the
    whole of `s`.
  */
  function SliceLast<T>(s: seq<T>, n: nat): (r: seq<T>)
    ensures n == 0 ==> r == s
    ensures 0 < n ==> |r| == Min(n, |s|)
    ensures r == s[|s| - |r|..]
  {
    if n == 0 || |s| <= n then s else s[|s| - n..]
  }

  /**
    Trimming to the last `n` and then appending more and trimming again keeps
    the same elements as trimming once at the end: an early trim loses nothing
    a later one would have kept.
  */
  lemma {:induction false} SliceLastAbsorbs<T>(s: seq<T>, u: seq<T>, n: nat)
    ensures SliceLast(SliceLast(s, n) + u, n) == SliceLast(s + u, n)
  {
    if 0 < n < |s| {
      var t, w := s[|s| - n..], s + u;
      assert SliceLast(s, n) == t;
      assert t + u == w[|s| - n..];
      assert SliceLast(w, n) == w[|w| - n..];
      assert SliceLast(t + u, n) == (t + u)[|t + u| - n..];
      assert (t + u)[|t + u| - n..] == w[|w| - n..];
    } else {
      assert SliceLast(s, n) == s;
    }
  }
}
