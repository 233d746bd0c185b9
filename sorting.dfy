/** The stable sorts the application performs with `Array.prototype.sort` and a comparator:
    each comparator in the source orders by a numeric rank and then by a string, so a sort
    is described by a key function into `Key`. `Array.prototype.sort` is stable. */
module Sorting {
  import opened Text

  /** A sort key: compared by `rank`, then lexicographically by `text`. */
  datatype Key = Key(rank: int, text: string)

  predicate KeyLt(a: Key, b: Key)
  {
    a.rank < b.rank || (a.rank == b.rank && StrLt(a.text, b.text))
  }

  /** "Not after": the comparator returns a value <= 0. */
  predicate KeyLe(a: Key, b: Key)
  {
    !KeyLt(b, a)
  }

  lemma KeyLeTotal(a: Key, b: Key)
    ensures KeyLe(a, b) || KeyLe(b, a)
  {
    if a.rank == b.rank {
      StrLtTotal(a.text, b.text);
      if StrLt(a.text, b.text) { StrLtAsymmetric(a.text, b.text); }
    }
  }

  lemma KeyLeTransitive(a: Key, b: Key, c: Key)
    requires KeyLe(a, b) && KeyLe(b, c)
    ensures KeyLe(a, c)
  {
    if KeyLt(c, a) {
      if a.rank == b.rank && b.rank == c.rank {
        StrLtTotal(a.text, b.text);
        StrLtTotal(b.text, c.text);
        if a.text != b.text && b.text != c.text {
          StrLtTransitive(a.text, b.text, c.text);
          StrLtAsymmetric(a.text, c.text);
        }
      }
    }
  }

  predicate Sorted<T>(s: seq<T>, key: T -> Key)
  {
    forall i, j :: 0 <= i < j < |s| ==> KeyLe(key(s[i]), key(s[j]))
  }

  /** Inserts `x` before the first element whose key is strictly greater, i.e. after
      every element it ties with: inserting in input order gives a stable sort. */
  function Insert<T>(x: T, s: seq<T>, key: T -> Key): (r: seq<T>)
    ensures |r| == |s| + 1
  {
    if |s| == 0 then [x]
    else if KeyLt(key(x), key(s[0])) then [x] + s
    else [s[0]] + Insert(x, s[1..], key)
  }

  /** The result of `sort(comparator)` on `s`: elements inserted one by one in input order. */
  function SortByKey<T>(s: seq<T>, key: T -> Key): (r: seq<T>)
    ensures |r| == |s|
  {
    if |s| == 0 then [] else Insert(s[|s| - 1], SortByKey(s[..|s| - 1], key), key)
  }

  lemma {:induction false} InsertPermutation<T>(x: T, s: seq<T>, key: T -> Key)
    ensures multiset(Insert(x, s, key)) == multiset(s) + multiset{x}
  {
    if |s| > 0 && !KeyLt(key(x), key(s[0])) {
      InsertPermutation(x, s[1..], key);
      assert s == [s[0]] + s[1..];
    }
  }

  lemma {:induction false} InsertSorted<T>(x: T, s: seq<T>, key: T -> Key)
    requires Sorted(s, key)
    ensures Sorted(Insert(x, s, key), key)
  {
    if |s| == 0 {
    } else if KeyLt(key(x), key(s[0])) {
      var r := [x] + s;
      forall i, j | 0 <= i < j < |r| ensures KeyLe(key(r[i]), key(r[j])) {
        if i == 0 {
          KeyLeTotal(key(x), key(s[0]));
          if j > 1 { KeyLeTransitive(key(x), key(s[0]), key(s[j - 1])); }
        }
      }
    } else {
      var t := s[1..];
      InsertSorted(x, t, key);
      InsertPermutation(x, t, key);
      var r := [s[0]] + Insert(x, t, key);
      forall i, j | 0 <= i < j < |r| ensures KeyLe(key(r[i]), key(r[j])) {
        if i == 0 {
          var y := r[j];
          assert y in multiset(Insert(x, t, key));
          if y == x {
            KeyLeTotal(key(x), key(s[0]));
          } else {
            assert y in multiset(t);
            var k :| 0 <= k < |t| && t[k] == y;
            assert s[k + 1] == y;
          }
        }
      }
    }
  }

  /** The sorted result is a permutation of the input. */
  lemma {:induction false} SortPermutation<T>(s: seq<T>, key: T -> Key)
    ensures multiset(SortByKey(s, key)) == multiset(s)
  {
    if |s| > 0 {
      var init := s[..|s| - 1];
      SortPermutation(init, key);
      InsertPermutation(s[|s| - 1], SortByKey(init, key), key);
      assert s == init + [s[|s| - 1]];
    }
  }

  /** The sorted result is ordered by the key. */
  lemma {:induction false} SortSorted<T>(s: seq<T>, key: T -> Key)
    ensures Sorted(SortByKey(s, key), key)
  {
    if |s| > 0 {
      var init := s[..|s| - 1];
      SortSorted(init, key);
      InsertSorted(s[|s| - 1], SortByKey(init, key), key);
    }
  }

  /** The elements of `s` whose key is `k`, in their order in `s`. */
  function WithKey<T>(s: seq<T>, key: T -> Key, k: Key): (r: seq<T>)
    ensures |r| <= |s| && forall i :: 0 <= i < |r| ==> key(r[i]) == k
  {
    if |s| == 0 then []
    else (if key(s[0]) == k then [s[0]] else []) + WithKey(s[1..], key, k)
  }

  lemma {:induction false} WithKeyConcat<T>(a: seq<T>, b: seq<T>, key: T -> Key, k: Key)
    ensures WithKey(a + b, key, k) == WithKey(a, key, k) + WithKey(b, key, k)
  {
    if |a| > 0 {
      WithKeyConcat(a[1..], b, key, k);
      assert (a + b)[1..] == a[1..] + b;
    } else {
      assert a + b == b;
    }
  }

  lemma {:induction false} WithKeyNone<T>(s: seq<T>, key: T -> Key, k: Key)
    requires forall i :: 0 <= i < |s| ==> key(s[i]) != k
    ensures WithKey(s, key, k) == []
  {
    if |s| > 0 { WithKeyNone(s[1..], key, k); }
  }

  lemma KeyLtLe(a: Key, b: Key, c: Key)
    requires KeyLt(a, b) && KeyLe(b, c)
    ensures KeyLt(a, c)
  {
    KeyLeTotal(a, c);
    if KeyLe(c, a) { KeyLeTransitive(b, c, a); }
  }

  lemma KeyLtIrreflexive(a: Key)
    ensures !KeyLt(a, a)
  {
    StrLtIrreflexive(a.text);
  }

  /** Inserting `x` into a sorted sequence puts it after every element with the same key. */
  lemma {:induction false} InsertWithKey<T>(x: T, s: seq<T>, key: T -> Key, k: Key)
    requires Sorted(s, key)
    ensures WithKey(Insert(x, s, key), key, k)
         == WithKey(s, key, k) + (if key(x) == k then [x] else [])
  {
    if |s| == 0 {
    } else if KeyLt(key(x), key(s[0])) {
      assert ([x] + s)[1..] == s;
      if key(x) == k {
        forall j | 0 <= j < |s| ensures key(s[j]) != k {
          if j > 0 { KeyLtLe(key(x), key(s[0]), key(s[j])); }
          KeyLtIrreflexive(k);
        }
        WithKeyNone(s, key, k);
      }
    } else {
      InsertWithKey(x, s[1..], key, k);
      assert ([s[0]] + Insert(x, s[1..], key))[1..] == Insert(x, s[1..], key);
    }
  }

  /** The sort is stable: the elements sharing any one key keep their input order. */
  lemma {:induction false} SortStable<T>(s: seq<T>, key: T -> Key, k: Key)
    ensures WithKey(SortByKey(s, key), key, k) == WithKey(s, key, k)
  {
    if |s| > 0 {
      var init := s[..|s| - 1];
      SortStable(init, key, k);
      SortSorted(init, key);
      InsertWithKey(s[|s| - 1], SortByKey(init, key), key, k);
      WithKeyConcat(init, [s[|s| - 1]], key, k);
      assert s == init + [s[|s| - 1]];
    }
  }

  /** Membership is unchanged by sorting. */
  lemma SortMembers<T>(s: seq<T>, key: T -> Key, x: T)
    ensures x in SortByKey(s, key) <==> x in s
  {
    SortPermutation(s, key);
    assert x in SortByKey(s, key) <==> x in multiset(SortByKey(s, key));
    assert x in s <==> x in multiset(s);
  }
}
