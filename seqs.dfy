/** Order-preserving sublists, which every list comprehension with an `if` and every loop that
    appends some of its inputs produces. */
module Seqs {

  /** `r` is `s` with some elements left out, the rest in their original order. */
  ghost predicate IsSubsequence<T>(r: seq<T>, s: seq<T>)
    decreases |s|
  {
    if r == [] then true
    else if s == [] then false
    else (r[0] == s[0] && IsSubsequence(r[1..], s[1..])) || IsSubsequence(r, s[1..])
  }

  /** Keeping the head, or dropping it, preserves the relation. */
  lemma {:induction false} SubsequenceCons<T>(x: T, r: seq<T>, s: seq<T>)
    requires IsSubsequence(r, s)
    ensures IsSubsequence([x] + r, [x] + s) && IsSubsequence(r, [x] + s)
  {
    assert ([x] + r)[1..] == r && ([x] + s)[1..] == s;
    if r != [] {
      assert IsSubsequence(r, [x] + s) by {
        SubsequenceTail(r, s, x);
      }
    }
  }

  lemma {:induction false} SubsequenceTail<T>(r: seq<T>, s: seq<T>, x: T)
    requires IsSubsequence(r, s)
    ensures IsSubsequence(r, [x] + s)
  {
    assert ([x] + s)[1..] == s;
  }

  /** Appending a kept element at the end preserves the relation; so does appending to the
      source only. */
  lemma {:induction false} SubsequenceSnoc<T>(r: seq<T>, s: seq<T>, x: T)
    requires IsSubsequence(r, s)
    ensures IsSubsequence(r + [x], s + [x]) && IsSubsequence(r, s + [x])
    decreases |s|
  {
    if r == [] {
      SubsequenceOfSelf([x]);
      assert r + [x] == [x];
      if s != [] {
        SubsequenceSkipAll([x], s);
      }
    } else {
      assert s != [];
      assert (s + [x])[1..] == s[1..] + [x];
      assert (r + [x])[1..] == r[1..] + [x];
      if r[0] == s[0] && IsSubsequence(r[1..], s[1..]) {
        SubsequenceSnoc(r[1..], s[1..], x);
      } else {
        SubsequenceSnoc(r, s[1..], x);
      }
    }
  }

  lemma {:induction false} SubsequenceOfSelf<T>(s: seq<T>)
    ensures IsSubsequence(s, s)
  {
    if s != [] {
      SubsequenceOfSelf(s[1..]);
    }
  }

  /** A list is a subsequence of itself with anything in front. */
  lemma {:induction false} SubsequenceSkipAll<T>(r: seq<T>, pre: seq<T>)
    ensures IsSubsequence(r, pre + r)
    decreases |pre|
  {
    if pre == [] {
      SubsequenceOfSelf(r);
      assert pre + r == r;
    } else {
      SubsequenceSkipAll(r, pre[1..]);
      assert (pre + r)[1..] == pre[1..] + r;
      if r != [] && !(r[0] == (pre + r)[0] && IsSubsequence(r[1..], (pre + r)[1..])) {
        assert IsSubsequence(r, (pre + r)[1..]);
      }
    }
  }

  /** Everything in a subsequence is in the original. */
  lemma {:induction false} SubsequenceMembers<T>(r: seq<T>, s: seq<T>)
    requires IsSubsequence(r, s)
    ensures forall x :: x in r ==> x in s
    ensures |r| <= |s|
    decreases |s|
  {
    if r != [] {
      if r[0] == s[0] && IsSubsequence(r[1..], s[1..]) {
        SubsequenceMembers(r[1..], s[1..]);
        assert forall x :: x in r ==> x == r[0] || x in r[1..];
        assert forall x :: x in s[1..] ==> x in s;
      } else {
        SubsequenceMembers(r, s[1..]);
        assert forall x :: x in s[1..] ==> x in s;
      }
    }
  }
}
