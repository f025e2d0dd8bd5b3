/** Regrouping and slicing of concatenated sequences, stated once for any
    element type so that the proofs that use them stay small. */
module Sequences {
  lemma Assoc<T>(a: seq<T>, b: seq<T>, c: seq<T>)
    ensures a + b + c == a + (b + c)
  {
  }

  lemma Regroup<T>(a: seq<T>, b: seq<T>, c: seq<T>, d: seq<T>)
    ensures a + b + c + d == a + (b + c + d)
    ensures a + (b + c) + d == a + b + c + d
  {
  }

  lemma Regroup5<T>(a: seq<T>, b: seq<T>, c: seq<T>, d: seq<T>, e: seq<T>)
    ensures a + (b + (c + (d + e))) == a + b + c + d + e
  {
  }

  lemma RegroupAround<T>(f: seq<T>, w: seq<T>, nl: seq<T>, s1: seq<T>, n: seq<T>)
    ensures f + w + (nl + s1) + n == f + (w + nl + (s1 + n))
  {
  }

  lemma SwapEmpty<T>(a: seq<T>, b: seq<T>, rest: seq<T>)
    requires a == [] || b == []
    ensures a + (b + rest) == b + (a + rest)
  {
  }

  lemma LineBetween<T>(pre: seq<T>, line: T, last: T)
    ensures var o := pre + [line] + [last];
      |o| == |pre| + 2 && o[..|pre|] == pre && o[|pre|] == line && o[|pre| + 1] == last
  {
  }

  lemma ThreeSlices<T>(a: seq<T>, b: seq<T>, c: seq<T>)
    ensures var o := a + b + c;
      && o[..|a|] == a && o[|a|..|a| + |b|] == b && o[|a| + |b|..] == c
  {
  }

  lemma SectionSlices<T>(head: seq<T>, w: seq<T>, n1: seq<T>, n2: seq<T>, m: seq<T>, last: T)
    ensures var o, i, j := head + w + n1 + n2 + m + [last], |head|, |head| + |w|;
      var k := j + |n1| + |n2|;
      && |o| == k + |m| + 1
      && o[..i] == head && o[i..j] == w && o[j..j + |n1|] == n1 && o[j + |n1|..k] == n2
      && o[k..k + |m|] == m && o[k + |m|] == last
  {
  }
}
