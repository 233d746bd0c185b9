/** Sequence transforms shared by the list handling in the application: order-preserving
    filtering, first-wins de-duplication (a `Set` of seen keys, or a `Map` written only
    when the key is absent) and last-wins merging (`Map.set`, which keeps the first
    insertion position but replaces the value). */
module Seqs {

  /** `a` is an order-preserving subsequence of `b`. */
  predicate Subseq<T(==)>(a: seq<T>, b: seq<T>)
    decreases |b|
  {
    |a| == 0 ||
    (|b| > 0 && ((a[|a| - 1] == b[|b| - 1] && Subseq(a[..|a| - 1], b[..|b| - 1])) || Subseq(a, b[..|b| - 1])))
  }

  lemma {:induction false} SubseqMembers<T>(a: seq<T>, b: seq<T>)
    requires Subseq(a, b)
    ensures forall x :: x in a ==> x in b
    decreases |b|
  {
    if |a| > 0 {
      if a[|a| - 1] == b[|b| - 1] && Subseq(a[..|a| - 1], b[..|b| - 1]) {
        SubseqMembers(a[..|a| - 1], b[..|b| - 1]);
        assert a == a[..|a| - 1] + [a[|a| - 1]];
      } else {
        SubseqMembers(a, b[..|b| - 1]);
      }
    }
  }

  lemma {:induction false} SubseqRefl<T>(a: seq<T>)
    ensures Subseq(a, a)
  {
    if |a| > 0 { SubseqRefl(a[..|a| - 1]); }
  }

  // ---------------------------------------------------------------------------
  // Filter

  /** `s.filter(p)`. */
  function Filter<T>(s: seq<T>, p: T -> bool): (r: seq<T>)
    ensures |r| <= |s|
    ensures forall i :: 0 <= i < |r| ==> p(r[i])
  {
    if |s| == 0 then []
    else if p(s[|s| - 1]) then Filter(s[..|s| - 1], p) + [s[|s| - 1]]
    else Filter(s[..|s| - 1], p)
  }

  /** The filter keeps exactly the elements satisfying `p`, in their original order. */
  lemma {:induction false} FilterExact<T>(s: seq<T>, p: T -> bool)
    ensures Subseq(Filter(s, p), s)
    ensures forall x :: x in Filter(s, p) <==> x in s && p(x)
  {
    if |s| > 0 {
      var init, last := s[..|s| - 1], s[|s| - 1];
      FilterExact(init, p);
      var f := Filter(init, p);
      assert s == init + [last];
      if p(last) {
        assert Filter(s, p) == f + [last];
        assert (f + [last])[..|f|] == f;
        assert Subseq(Filter(s, p), s);
        forall x ensures x in Filter(s, p) <==> x in s && p(x) {
          assert x in f + [last] <==> x in f || x == last;
          assert x in s <==> x in init || x == last;
        }
      } else {
        assert Filter(s, p) == f;
        assert Subseq(Filter(s, p), s);
        forall x ensures x in Filter(s, p) <==> x in s && p(x) {
          assert x in s <==> x in init || x == last;
        }
      }
    }
  }

  /** A predicate and its negation split the list: the two filters together hold every
      element exactly once. */
  lemma {:induction false} FilterPartition<T>(s: seq<T>, p: T -> bool, q: T -> bool)
    requires forall x :: q(x) == !p(x)
    ensures multiset(Filter(s, p)) + multiset(Filter(s, q)) == multiset(s)
  {
    if |s| > 0 {
      var init := s[..|s| - 1];
      FilterPartition(init, p, q);
      assert s == init + [s[|s| - 1]];
    }
  }

  // ---------------------------------------------------------------------------
  // Keyed de-duplication

  predicate HasKey<T>(s: seq<T>, key: T -> string, k: string)
  {
    exists i :: 0 <= i < |s| && key(s[i]) == k
  }

  predicate UniqueKeys<T>(s: seq<T>, key: T -> string)
  {
    forall i, j :: 0 <= i < j < |s| ==> key(s[i]) != key(s[j])
  }

  /** `x` is the first element of `s` with its key. */
  predicate FirstWithKey<T(==)>(s: seq<T>, key: T -> string, x: T)
  {
    exists i :: 0 <= i < |s| && s[i] == x && !HasKey(s[..i], key, key(x))
  }

  /** `x` is the last element of `s` with its key. */
  predicate LastWithKey<T(==)>(s: seq<T>, key: T -> string, x: T)
  {
    exists i :: 0 <= i < |s| && s[i] == x && !HasKey(s[i + 1..], key, key(x))
  }

  /** Keeps the first element for each key, in input order. */
  function DedupFirst<T>(s: seq<T>, key: T -> string): (r: seq<T>)
    ensures |r| <= |s|
  {
    if |s| == 0 then []
    else
      var r := DedupFirst(s[..|s| - 1], key);
      if HasKey(r, key, key(s[|s| - 1])) then r else r + [s[|s| - 1]]
  }

  /** A key occurs in `s + [x]` exactly when it occurs in `s` or is the key of `x`. */
  lemma HasKeyAppend<T>(s: seq<T>, x: T, key: T -> string, k: string)
    ensures HasKey(s + [x], key, k) <==> HasKey(s, key, k) || key(x) == k
  {
    if HasKey(s + [x], key, k) {
      var i :| 0 <= i < |s| + 1 && key((s + [x])[i]) == k;
      assert i < |s| ==> (s + [x])[i] == s[i];
    }
    if HasKey(s, key, k) {
      var i :| 0 <= i < |s| && key(s[i]) == k;
      assert key((s + [x])[i]) == k;
    }
    if key(x) == k {
      assert key((s + [x])[|s|]) == k;
    }
  }

  /** Appending one element: it is kept exactly when its key is new. */
  lemma DedupFirstAppend<T>(s: seq<T>, x: T, key: T -> string)
    ensures DedupFirst(s + [x], key) ==
      if HasKey(DedupFirst(s, key), key, key(x)) then DedupFirst(s, key) else DedupFirst(s, key) + [x]
  {
    assert (s + [x])[..|s|] == s;
  }

  /** First-wins de-duplication: keys are unique, no key is lost, the result is an
      order-preserving subsequence, and each kept element is the first with its key. */
  lemma {:induction false} DedupFirstSpec<T>(s: seq<T>, key: T -> string)
    ensures UniqueKeys(DedupFirst(s, key), key)
    ensures forall k :: HasKey(DedupFirst(s, key), key, k) <==> HasKey(s, key, k)
    ensures Subseq(DedupFirst(s, key), s)
    ensures forall x :: x in DedupFirst(s, key) ==> FirstWithKey(s, key, x)
  {
    if |s| > 0 {
      var init := s[..|s| - 1];
      var last := s[|s| - 1];
      var r := DedupFirst(init, key);
      DedupFirstSpec(init, key);
      forall k | HasKey(s, key, k) ensures HasKey(init, key, k) || key(last) == k {
        var i :| 0 <= i < |s| && key(s[i]) == k;
        if i < |s| - 1 { assert init[i] == s[i]; }
      }
      forall k | HasKey(init, key, k) ensures HasKey(s, key, k) {
        var i :| 0 <= i < |init| && key(init[i]) == k;
        assert s[i] == init[i];
      }
      forall x | x in r ensures FirstWithKey(s, key, x) {
        var i :| 0 <= i < |init| && init[i] == x && !HasKey(init[..i], key, key(x));
        assert s[..i] == init[..i];
      }
      if !HasKey(r, key, key(last)) {
        assert !HasKey(init[..|init|], key, key(last)) by { assert init[..|init|] == init; }
        assert FirstWithKey(s, key, last) by { assert s[|s| - 1] == last && s[..|s| - 1] == init; }
        assert Subseq(r + [last], s) by { assert (r + [last])[..|r|] == r; }
      }
    }
  }

  /** Writes `x` under its key: replaces the element with the same key in place, or
      appends it — `Map.set` on an insertion-ordered map. */
  function SetByKey<T>(r: seq<T>, key: T -> string, x: T): (t: seq<T>)
    ensures HasKey(r, key, key(x)) ==> |t| == |r|
    ensures !HasKey(r, key, key(x)) ==> |t| == |r| + 1 && t[|r|] == x
    ensures forall i :: 0 <= i < |r| ==> t[i] == (if key(r[i]) == key(x) then x else r[i])
  {
    if HasKey(r, key, key(x)) then seq(|r|, i requires 0 <= i < |r| => if key(r[i]) == key(x) then x else r[i])
    else r + [x]
  }

  /** Inserts every element in order with `Map.set`: the last element with a key wins,
      at the position where the key first appeared. */
  function MergeLastWins<T>(s: seq<T>, key: T -> string): (r: seq<T>)
    ensures |r| <= |s|
  {
    if |s| == 0 then [] else SetByKey(MergeLastWins(s[..|s| - 1], key), key, s[|s| - 1])
  }

  /** Last-wins merging: keys are unique, no key is lost or invented, and each kept
      element is the last one with its key. */
  lemma MergeLastWinsSpec<T>(s: seq<T>, key: T -> string)
    ensures UniqueKeys(MergeLastWins(s, key), key)
    ensures forall k :: HasKey(MergeLastWins(s, key), key, k) <==> HasKey(s, key, k)
    ensures forall x :: x in MergeLastWins(s, key) ==> LastWithKey(s, key, x)
  {
    MergeLastWinsKeys(s, key);
    MergeLastWinsLast(s, key);
  }

  /** Writing by key keeps the keys unique and adds exactly the written key. */
  lemma SetByKeyKeys<T>(r: seq<T>, key: T -> string, x: T)
    requires UniqueKeys(r, key)
    ensures UniqueKeys(SetByKey(r, key, x), key)
    ensures forall k :: HasKey(SetByKey(r, key, x), key, k) <==> HasKey(r, key, k) || k == key(x)
  {
    var t := SetByKey(r, key, x);
    forall k ensures HasKey(t, key, k) <==> HasKey(r, key, k) || k == key(x) {
      if HasKey(t, key, k) {
        var i :| 0 <= i < |t| && key(t[i]) == k;
        if i < |r| && key(r[i]) != key(x) { assert key(r[i]) == k; }
      }
      if HasKey(r, key, k) {
        var i :| 0 <= i < |r| && key(r[i]) == k;
        assert key(t[i]) == k;
      }
      if k == key(x) {
        if HasKey(r, key, k) {
          var i :| 0 <= i < |r| && key(r[i]) == k;
          assert t[i] == x;
        } else {
          assert t[|r|] == x;
        }
      }
    }
  }

  lemma {:induction false} MergeLastWinsKeys<T>(s: seq<T>, key: T -> string)
    ensures UniqueKeys(MergeLastWins(s, key), key)
    ensures forall k :: HasKey(MergeLastWins(s, key), key, k) <==> HasKey(s, key, k)
  {
    if |s| > 0 {
      var init, last := s[..|s| - 1], s[|s| - 1];
      MergeLastWinsKeys(init, key);
      SetByKeyKeys(MergeLastWins(init, key), key, last);
      assert s == init + [last];
      forall k ensures HasKey(s, key, k) <==> HasKey(init, key, k) || k == key(last) {
        HasKeyAppend(init, last, key, k);
      }
    }
  }

  lemma {:induction false} MergeLastWinsLast<T>(s: seq<T>, key: T -> string)
    ensures forall x :: x in MergeLastWins(s, key) ==> LastWithKey(s, key, x)
  {
    if |s| > 0 {
      var init, last := s[..|s| - 1], s[|s| - 1];
      var r := MergeLastWins(init, key);
      var t := SetByKey(r, key, last);
      MergeLastWinsLast(init, key);
      forall x | x in t ensures LastWithKey(s, key, x) {
        var i :| 0 <= i < |t| && t[i] == x;
        if x == last {
          assert s[|s| - 1] == x && s[|s|..] == [];
        } else {
          assert i < |r| && r[i] == x && key(x) != key(last);
          assert x in r;
          var j :| 0 <= j < |init| && init[j] == x && !HasKey(init[j + 1..], key, key(x));
          assert s[j] == x;
          assert s[j + 1..] == init[j + 1..] + [last];
          HasKeyAppend(init[j + 1..], last, key, key(x));
        }
      }
    }
  }

  // ---------------------------------------------------------------------------
  // Keys under reordering

  /** A reordering keeps the same keys. */
  lemma PermutationKeepsKeys<T>(r: seq<T>, d: seq<T>, key: T -> string)
    requires multiset(r) == multiset(d)
    ensures forall k :: HasKey(r, key, k) <==> HasKey(d, key, k)
  {
    forall k ensures HasKey(r, key, k) ==> HasKey(d, key, k) {
      if HasKey(r, key, k) {
        var i :| 0 <= i < |r| && key(r[i]) == k;
        assert r[i] in multiset(d);
        var j :| 0 <= j < |d| && d[j] == r[i];
      }
    }
    forall k ensures HasKey(d, key, k) ==> HasKey(r, key, k) {
      if HasKey(d, key, k) {
        var i :| 0 <= i < |d| && key(d[i]) == k;
        assert d[i] in multiset(r);
        var j :| 0 <= j < |r| && r[j] == d[i];
      }
    }
  }

  /** In a sequence with unique keys every element occurs once. */
  lemma UniqueKeysOnce<T>(d: seq<T>, key: T -> string, a: int)
    requires UniqueKeys(d, key) && 0 <= a < |d|
    ensures multiset(d)[d[a]] == 1
  {
    assert d == d[..a] + [d[a]] + d[a + 1..];
    assert d[a] !in d[..a] by {
      forall i | 0 <= i < a ensures d[i] != d[a] { }
    }
    assert d[a] !in d[a + 1..] by {
      forall i | a < i < |d| ensures d[i] != d[a] { }
    }
  }

  /** A reordering of a sequence with unique keys has unique keys. */
  lemma PermutationKeepsUniqueKeys<T>(r: seq<T>, d: seq<T>, key: T -> string)
    requires multiset(r) == multiset(d) && UniqueKeys(d, key)
    ensures UniqueKeys(r, key)
  {
    forall i, j | 0 <= i < j < |r| ensures key(r[i]) != key(r[j]) {
      if key(r[i]) == key(r[j]) {
        assert r[i] in multiset(d) && r[j] in multiset(d);
        var a :| 0 <= a < |d| && d[a] == r[i];
        var b :| 0 <= b < |d| && d[b] == r[j];
        assert a == b;
        assert multiset(r)[r[i]] >= 2 by {
          assert r == r[..i] + [r[i]] + r[i + 1..j] + [r[j]] + r[j + 1..];
        }
        UniqueKeysOnce(d, key, a);
      }
    }
  }
}
