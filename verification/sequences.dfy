/**
 * Sequence combinators the app uses on every snapshot and search:
 * Swift's `compactMap` (decode, drop failures) and `filter`.
 */
module Sequences {
  import opened Wrappers

  /** Swift's `compactMap`: apply `f` to each element, keep the `Some` results in order. */
  function CompactMap<A, B>(s: seq<A>, f: A -> Option<B>): (r: seq<B>)
    ensures |r| <= |s|
    ensures (forall i :: 0 <= i < |s| ==> f(s[i]).Some?) ==> |r| == |s|
  {
    if s == [] then []
    else
      var rest := CompactMap(s[1..], f);
      assert (forall i :: 0 <= i < |s| ==> f(s[i]).Some?) ==>
        (forall i :: 0 <= i < |s[1..]| ==> f(s[1..][i]).Some?);
      match f(s[0])
      case Some(b) => [b] + rest
      case None => rest
  }

  /** An element is in the result exactly when some input element decodes to it. */
  lemma {:induction false} CompactMapMembership<A, B>(s: seq<A>, f: A -> Option<B>, y: B)
    ensures y in CompactMap(s, f) <==> exists i :: 0 <= i < |s| && f(s[i]) == Some(y)
  {
    if s != [] {
      CompactMapMembership(s[1..], f, y);
      if exists i :: 0 <= i < |s| && f(s[i]) == Some(y) {
        var i :| 0 <= i < |s| && f(s[i]) == Some(y);
        if i > 0 {
          assert f(s[1..][i - 1]) == Some(y);
        }
      }
      if exists i :: 0 <= i < |s[1..]| && f(s[1..][i]) == Some(y) {
        var i :| 0 <= i < |s[1..]| && f(s[1..][i]) == Some(y);
        assert f(s[i + 1]) == Some(y);
      }
    }
  }

  /** Decoding distributes over concatenation of snapshots. */
  lemma {:induction false} CompactMapAppend<A, B>(a: seq<A>, b: seq<A>, f: A -> Option<B>)
    ensures CompactMap(a + b, f) == CompactMap(a, f) + CompactMap(b, f)
  {
    if a != [] {
      assert (a + b)[1..] == a[1..] + b;
      CompactMapAppend(a[1..], b, f);
    } else {
      assert a + b == b;
    }
  }

  /** When every element decodes, the result is the element-wise decoding. */
  lemma {:induction false} CompactMapTotal<A, B>(s: seq<A>, f: A -> Option<B>)
    requires forall i :: 0 <= i < |s| ==> f(s[i]).Some?
    ensures |CompactMap(s, f)| == |s|
    ensures forall i :: 0 <= i < |s| ==> CompactMap(s, f)[i] == f(s[i]).value
  {
    if s != [] {
      assert forall i :: 0 <= i < |s[1..]| ==> f(s[1..][i]) == f(s[i + 1]);
      CompactMapTotal(s[1..], f);
    }
  }

  /** The keyed elements of `r` come in ascending key order (elements without a key are ignored). */
  predicate Ascending<B>(r: seq<B>, key: B -> Option<int>) {
    forall i, j :: 0 <= i < j < |r| && key(r[i]).Some? && key(r[j]).Some? ==> key(r[i]).value <= key(r[j]).value
  }

  /**
   * Order preservation. `docKey` is the key the store orders by (None where the stored value
   * does not have the ordered type) and `key` the same key read off a decoded element. If the
   * keyed inputs arrive in ascending key order, the keyed outputs are in ascending key order.
   */
  lemma {:induction false} CompactMapOrdered<A, B>(s: seq<A>, f: A -> Option<B>,
                                                    docKey: A -> Option<int>, key: B -> Option<int>)
    requires forall x :: f(x).Some? ==> docKey(x) == key(f(x).value)
    requires Ascending(s, docKey)
    ensures Ascending(CompactMap(s, f), key)
  {
    if s != [] {
      var tail := s[1..];
      assert Ascending(tail, docKey) by {
        assert forall i :: 0 <= i < |tail| ==> tail[i] == s[i + 1];
      }
      CompactMapOrdered(tail, f, docKey, key);
      var rest := CompactMap(tail, f);
      var r := CompactMap(s, f);
      if f(s[0]).Some? {
        assert r == [f(s[0]).value] + rest;
        forall i, j | 0 <= i < j < |r| && key(r[i]).Some? && key(r[j]).Some?
          ensures key(r[i]).value <= key(r[j]).value
        {
          assert r[j] == rest[j - 1];
          if i == 0 {
            assert rest[j - 1] in rest;
            CompactMapMembership(tail, f, r[j]);
            var k :| 0 <= k < |tail| && f(tail[k]) == Some(r[j]);
            assert f(s[k + 1]) == Some(r[j]);
            assert docKey(s[0]) == key(r[0]) && docKey(s[k + 1]) == key(r[j]);
          } else {
            assert r[i] == rest[i - 1];
          }
        }
      } else {
        assert r == rest;
      }
    }
  }

  /** Swift's `filter`: the elements satisfying `p`, in their original order. */
  function Filter<T>(s: seq<T>, p: T -> bool): (r: seq<T>)
    ensures |r| <= |s|
    ensures forall x :: x in r ==> x in s && p(x)
  {
    if s == [] then []
    else if p(s[0]) then [s[0]] + Filter(s[1..], p)
    else Filter(s[1..], p)
  }

  /** Nothing that satisfies `p` is dropped. */
  lemma {:induction false} FilterKeeps<T>(s: seq<T>, p: T -> bool, x: T)
    requires x in s && p(x)
    ensures x in Filter(s, p)
  {
    if s[0] != x {
      assert x in s[1..];
      FilterKeeps(s[1..], p, x);
    }
  }

  /** When every element satisfies `p`, filtering returns the input unchanged. */
  lemma {:induction false} FilterAll<T>(s: seq<T>, p: T -> bool)
    requires forall x :: x in s ==> p(x)
    ensures Filter(s, p) == s
  {
    if s != [] {
      assert forall x :: x in s[1..] ==> x in s;
      FilterAll(s[1..], p);
    }
  }

  /** `r` is `s` with some elements deleted and the rest kept in order. */
  predicate IsSubsequence<T(==)>(r: seq<T>, s: seq<T>)
    decreases |s|
  {
    r == [] || (s != [] && if r[0] == s[0] then IsSubsequence(r[1..], s[1..]) else IsSubsequence(r, s[1..]))
  }

  /** Filtering keeps the survivors in their original order. */
  lemma {:induction false} FilterIsSubsequence<T>(s: seq<T>, p: T -> bool)
    ensures IsSubsequence(Filter(s, p), s)
  {
    if s != [] {
      FilterIsSubsequence(s[1..], p);
      var rest := Filter(s[1..], p);
      if p(s[0]) {
        assert Filter(s, p) == [s[0]] + rest;
        assert Filter(s, p)[1..] == rest;
      } else if rest != [] {
        SubsequenceSkip(rest, s[1..], s[0]);
      }
    }
  }

  /** Prepending an element to the longer sequence keeps a subsequence a subsequence. */
  lemma {:induction false} SubsequenceSkip<T>(r: seq<T>, s: seq<T>, x: T)
    requires IsSubsequence(r, s)
    ensures IsSubsequence(r, [x] + s)
    decreases |s|, 1
  {
    var xs := [x] + s;
    assert xs[1..] == s;
    if r != [] && r[0] == x {
      // r[0] is matched to x; the rest of r must still be found in s.
      SubsequenceTail(r, s);
    }
  }

  /** Dropping the head of a subsequence leaves a subsequence. */
  lemma {:induction false} SubsequenceTail<T>(r: seq<T>, s: seq<T>)
    requires r != [] && IsSubsequence(r, s)
    ensures IsSubsequence(r[1..], s)
    decreases |s|, 0
  {
    if r[0] == s[0] {
      if r[1..] != [] {
        SubsequenceSkip(r[1..], s[1..], s[0]);
        assert [s[0]] + s[1..] == s;
      }
    } else {
      SubsequenceTail(r, s[1..]);
      if r[1..] != [] {
        SubsequenceSkip(r[1..], s[1..], s[0]);
        assert [s[0]] + s[1..] == s;
      }
    }
  }
}
