/** Sequence helpers shared by the trace and the log models. */
module Seqs {
  import opened Wrappers

  /** `n` copies of `s`, one after another. */
  function Repeat<T>(s: seq<T>, n: nat): (r: seq<T>)
    ensures |r| == n * |s|
  {
    if n == 0 then [] else Repeat(s, n - 1) + s
  }

  /** Each element occurs in `Repeat(s, n)` exactly `n` times as often as in `s`. */
  lemma {:induction false} RepeatMultiset<T>(s: seq<T>, n: nat, x: T)
    ensures multiset(Repeat(s, n))[x] == n * multiset(s)[x]
  {
    if n > 0 {
      RepeatMultiset(s, n - 1, x);
      assert multiset(Repeat(s, n)) == multiset(Repeat(s, n - 1)) + multiset(s);
      assert (n - 1) * multiset(s)[x] + multiset(s)[x] == n * multiset(s)[x];
    }
  }

  /** The last `n` elements of `s` (all of `s` when it is shorter). */
  function Newest<T>(s: seq<T>, n: nat): (r: seq<T>)
    ensures |r| == if |s| <= n then |s| else n
    ensures r == s[|s| - |r|..]
  {
    if |s| <= n then s else s[|s| - n..]
  }

  /** Trimming before appending more does not change what is finally kept. */
  lemma NewestAfterNewest<T>(a: seq<T>, b: seq<T>, n: nat)
    ensures Newest(Newest(a, n) + b, n) == Newest(a + b, n)
  {
    if |a| > n {
      var s := a + b;
      var k := |a| - n;
      assert Newest(a, n) + b == s[k..];
      SuffixOfSuffix(s, k, n);
    }
  }

  lemma SuffixOfSuffix<T>(s: seq<T>, k: nat, m: nat)
    requires k + m <= |s|
    ensures s[k..][|s| - k - m..] == s[|s| - m..]
  {
  }

  /** Position of the first `x` in `s`. */
  function IndexOf<T(==)>(s: seq<T>, x: T): (r: Option<nat>)
    ensures r.Some? ==> r.value < |s| && s[r.value] == x && x !in s[..r.value]
    ensures r.None? <==> x !in s
  {
    if |s| == 0 then None
    else if s[0] == x then Some(0)
    else match IndexOf(s[1..], x)
      case None => None
      case Some(k) =>
        assert s[1..][..k] == s[1..k + 1];
        assert s[..k + 1] == [s[0]] + s[1..k + 1];
        Some(k + 1)
  }

  /** A separator that does not occur in `a` is first found right after `a`. */
  lemma IndexOfAfter<T>(a: seq<T>, x: T, b: seq<T>)
    requires x !in a
    ensures IndexOf(a + [x] + b, x) == Some(|a|)
  {
    var s := a + [x] + b;
    assert s[|a|] == x;
  }

  /** A slice of a slice is a slice of the whole. */
  lemma SliceOfSlice<T>(s: seq<T>, lo: nat, hi: nat, a: nat, b: nat)
    requires lo <= hi <= |s| && a <= b <= hi - lo
    ensures s[lo .. hi][a .. b] == s[lo + a .. lo + b]
  {
    var inner, outer := s[lo .. hi][a .. b], s[lo + a .. lo + b];
    assert |inner| == |outer|;
    forall j | 0 <= j < |inner|
      ensures inner[j] == outer[j]
    {
      assert inner[j] == s[lo + a + j];
    }
  }

  /** A piece of a block of `t` is the matching piece of `t`. */
  lemma SliceWithin<T>(t: seq<T>, lo: nat, hi: nat, block: seq<T>, a: nat, b: nat, piece: seq<T>)
    requires lo <= hi <= |t| && t[lo .. hi] == block
    requires a <= b <= |block| && block[a .. b] == piece
    ensures lo + b <= hi && t[lo + a .. lo + b] == piece
  {
    SliceOfSlice(t, lo, hi, a, b);
  }

  /** A sequence is the concatenation of its pieces between three cut points. */
  lemma SplitFour<T>(s: seq<T>, a: nat, b: nat, c: nat)
    requires a <= b <= c <= |s|
    ensures s == s[..a] + s[a..b] + s[b..c] + s[c..]
  {
    assert s[..b] == s[..a] + s[a..b];
    assert s[..c] == s[..b] + s[b..c];
    assert s == s[..c] + s[c..];
  }

  /** A sequence is the concatenation of its pieces around one element. */
  lemma SplitAround<T>(s: seq<T>, a: nat)
    requires a < |s|
    ensures s == s[..a] + [s[a]] + s[a + 1..]
  {
    assert s[..a + 1] == s[..a] + [s[a]];
    assert s == s[..a + 1] + s[a + 1..];
  }

  /** Putting a head before three pieces is the same as putting it before their concatenation. */
  lemma PrependThree<T>(h: seq<T>, a: seq<T>, b: seq<T>, c: seq<T>, s: seq<T>)
    requires |h| <= |s| && s[..|h|] == h && s[|h|..] == a + b + c
    ensures s == h + a + b + c
  {
    assert s == s[..|h|] + s[|h|..];
  }
}
