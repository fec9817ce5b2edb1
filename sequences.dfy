/** The list-building primitives the chart code relies on: pairing two
    sequences up to the shorter one, integer ranges, repetition of one value
    and enumeration with indices. Each is defined by recursion on its input,
    the way the language builtin walks it, and is then characterised
    element by element by a lemma. */
module Sequences {

  /** Pairs up `a` and `b` element by element, stopping at the shorter one. */
  function Zip<A, B>(a: seq<A>, b: seq<B>): seq<(A, B)>
  {
    if |a| == 0 || |b| == 0 then []
    else [(a[0], b[0])] + Zip(a[1..], b[1..])
  }

  function Min(x: int, y: int): int
  {
    if x <= y then x else y
  }

  /** Zip keeps exactly as many pairs as the shorter input has elements, and
      its k-th pair holds the k-th element of each input. */
  lemma {:induction false} ZipAt<A, B>(a: seq<A>, b: seq<B>)
    ensures |Zip(a, b)| == Min(|a|, |b|)
    ensures forall k :: 0 <= k < |Zip(a, b)| ==> Zip(a, b)[k] == (a[k], b[k])
  {
    if |a| != 0 && |b| != 0 {
      ZipAt(a[1..], b[1..]);
      var z := Zip(a, b);
      assert z == [(a[0], b[0])] + Zip(a[1..], b[1..]);
      forall k | 0 <= k < |z|
        ensures z[k] == (a[k], b[k])
      {
        if k > 0 {
          assert z[k] == Zip(a[1..], b[1..])[k - 1];
        }
      }
    }
  }

  /** The integers lo, lo+1, ..., hi-1 (empty when hi <= lo). */
  function Range(lo: int, hi: int): seq<int>
    decreases hi - lo
  {
    if hi <= lo then [] else [lo] + Range(lo + 1, hi)
  }

  /** Range(lo, hi) has hi - lo elements (none when hi <= lo), the k-th
      being lo + k. */
  lemma {:induction false} RangeAt(lo: int, hi: int)
    ensures |Range(lo, hi)| == if hi <= lo then 0 else hi - lo
    ensures forall k :: 0 <= k < |Range(lo, hi)| ==> Range(lo, hi)[k] == lo + k
    decreases hi - lo
  {
    if lo < hi {
      RangeAt(lo + 1, hi);
      var r := Range(lo, hi);
      forall k | 0 <= k < |r|
        ensures r[k] == lo + k
      {
        if k > 0 {
          assert r[k] == Range(lo + 1, hi)[k - 1];
        }
      }
    }
  }

  /** The sequence holding `n` copies of `x`. */
  function Repeat<T>(x: T, n: nat): seq<T>
  {
    if n == 0 then [] else [x] + Repeat(x, n - 1)
  }

  lemma {:induction false} RepeatAt<T>(x: T, n: nat)
    ensures |Repeat(x, n)| == n
    ensures forall k :: 0 <= k < n ==> Repeat(x, n)[k] == x
  {
    if n > 0 {
      RepeatAt(x, n - 1);
      var r := Repeat(x, n);
      forall k | 0 <= k < n
        ensures r[k] == x
      {
        if k > 0 {
          assert r[k] == Repeat(x, n - 1)[k - 1];
        }
      }
    }
  }

  /** Pairs each element of `s` with its index, counting from `start`. */
  function Enumerate<T>(s: seq<T>, start: int): seq<(int, T)>
  {
    if |s| == 0 then [] else [(start, s[0])] + Enumerate(s[1..], start + 1)
  }

  lemma {:induction false} EnumerateAt<T>(s: seq<T>, start: int)
    ensures |Enumerate(s, start)| == |s|
    ensures forall k :: 0 <= k < |s| ==> Enumerate(s, start)[k] == (start + k, s[k])
  {
    if |s| > 0 {
      EnumerateAt(s[1..], start + 1);
      var e := Enumerate(s, start);
      forall k | 0 <= k < |s|
        ensures e[k] == (start + k, s[k])
      {
        if k > 0 {
          assert e[k] == Enumerate(s[1..], start + 1)[k - 1];
        }
      }
    }
  }
}
