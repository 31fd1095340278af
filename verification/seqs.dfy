/** Sequence windows used by the query and session code: SQL `LIMIT n`,
    Python's `xs[-n:]` and `list.reverse()`. */
module Seqs {

  function Min(a: int, b: int): int {
    if a <= b then a else b
  }

  /** The first `n` elements (`LIMIT n` over an ordered query). */
  function Take<T>(s: seq<T>, n: nat): (r: seq<T>)
    ensures |r| == Min(n, |s|)
    ensures r == s[..|r|]
  {
    if |s| <= n then s else s[..n]
  }

  /** The last `n` elements (`s[-n:]`, which is all of `s` when it is shorter). */
  function Last<T>(s: seq<T>, n: nat): (r: seq<T>)
    ensures |r| == Min(n, |s|)
    ensures r == s[|s| - |r|..]
  {
    if |s| <= n then s else s[|s| - n..]
  }

  function Reverse<T>(s: seq<T>): (r: seq<T>)
    ensures |r| == |s|
    ensures forall i :: 0 <= i < |s| ==> r[i] == s[|s| - 1 - i]
  {
    if |s| == 0 then [] else Reverse(s[1..]) + [s[0]]
  }

  /** Reading the `n` newest elements newest-first and reversing them gives
      the last `n` elements in their original order. */
  lemma NewestReversedIsLast<T>(s: seq<T>, n: nat)
    ensures Reverse(Take(Reverse(s), n)) == Last(s, n)
  {
    var t := Reverse(s);
    var newest := Take(t, n);
    var a := Reverse(newest);
    var b := Last(s, n);
    var k := |newest|;
    assert |a| == k == |b|;
    forall i | 0 <= i < k
      ensures a[i] == b[i]
    {
      assert a[i] == newest[k - 1 - i];
      assert newest[k - 1 - i] == t[k - 1 - i];
      assert t[k - 1 - i] == s[|s| - k + i];
    }
  }

  /** Trimming to the last `n` after an append keeps the appended element last. */
  lemma LastKeepsNewest<T>(s: seq<T>, x: T, n: nat)
    requires n > 0
    ensures |Last(s + [x], n)| > 0
    ensures Last(s + [x], n)[|Last(s + [x], n)| - 1] == x
  {
  }
}
