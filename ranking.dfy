/**
 * The ordering both filtering hooks give their candidates: a score, higher first, then a
 * title, alphabetical. `Array.prototype.sort` is stable, so candidates with the same score
 * and title keep the order they had. The sort is written as an insertion sort over values.
 */
module Ranking {
  import opened Strings

  /** What a comparator looks at: the score and the (lowercased) title. */
  datatype RankKey = RankKey(score: int, title: string)

  /** `a` may come before `b`: a higher score, or an equal score and a title that is not after `b`'s. */
  predicate KeyLe(a: RankKey, b: RankKey) {
    a.score > b.score || (a.score == b.score && LexLe(a.title, b.title))
  }

  lemma KeyLeTotal(a: RankKey, b: RankKey)
    ensures KeyLe(a, b) || KeyLe(b, a)
  {
    LexLeTotal(a.title, b.title);
  }

  lemma KeyLeReflexive(a: RankKey)
    ensures KeyLe(a, a)
  {
    LexLeReflexive(a.title);
  }

  lemma KeyLeTransitive(a: RankKey, b: RankKey, c: RankKey)
    requires KeyLe(a, b) && KeyLe(b, c)
    ensures KeyLe(a, c)
  {
    if a.score == b.score && b.score == c.score {
      LexLeTransitive(a.title, b.title, c.title);
    }
  }

  predicate Sorted<T>(s: seq<T>, key: T -> RankKey) {
    forall i, j :: 0 <= i < j < |s| ==> KeyLe(key(s[i]), key(s[j]))
  }

  /** The elements of `s` whose key is `k`, in order: what stability preserves. */
  function WithKey<T>(s: seq<T>, key: T -> RankKey, k: RankKey): (r: seq<T>)
    ensures |r| <= |s|
  {
    if s == [] then []
    else (if key(s[0]) == k then [s[0]] else []) + WithKey(s[1..], key, k)
  }

  lemma {:induction false} WithKeyAppend<T>(a: seq<T>, b: seq<T>, key: T -> RankKey, k: RankKey)
    ensures WithKey(a + b, key, k) == WithKey(a, key, k) + WithKey(b, key, k)
  {
    if a == [] {
      assert a + b == b;
    } else {
      assert (a + b)[1..] == a[1..] + b;
      WithKeyAppend(a[1..], b, key, k);
    }
  }

  /** Places `x` in front of the first element whose key comes strictly after `x`'s. */
  function Insert<T>(s: seq<T>, x: T, key: T -> RankKey): seq<T> {
    if s == [] then [x]
    else if !KeyLe(key(s[0]), key(x)) then [x] + s
    else [s[0]] + Insert(s[1..], x, key)
  }

  lemma {:induction false} InsertPermutes<T>(s: seq<T>, x: T, key: T -> RankKey)
    ensures multiset(Insert(s, x, key)) == multiset(s) + multiset{x}
  {
    if s != [] && KeyLe(key(s[0]), key(x)) {
      InsertPermutes(s[1..], x, key);
      assert s == [s[0]] + s[1..];
    }
  }

  lemma {:induction false} InsertSorted<T>(s: seq<T>, x: T, key: T -> RankKey)
    requires Sorted(s, key)
    ensures Sorted(Insert(s, x, key), key)
  {
    if s == [] {
    } else if !KeyLe(key(s[0]), key(x)) {
      KeyLeTotal(key(s[0]), key(x));
      forall j | 0 <= j < |s| ensures KeyLe(key(x), key(s[j])) {
        if j > 0 {
          KeyLeTransitive(key(x), key(s[0]), key(s[j]));
        }
      }
    } else {
      var t := s[1..];
      InsertSorted(t, x, key);
      InsertPermutes(t, x, key);
      var r := Insert(t, x, key);
      forall j | 0 <= j < |r| ensures KeyLe(key(s[0]), key(r[j])) {
        assert r[j] in multiset(t) + multiset{x};
        if r[j] != x {
          assert r[j] in t;
          var m :| 0 <= m < |t| && t[m] == r[j];
          assert s[m + 1] == r[j];
        }
      }
    }
  }

  /** Inserting `x` into a sorted sequence appends it to the elements with its key. */
  lemma {:induction false} InsertWithKey<T>(s: seq<T>, x: T, key: T -> RankKey, k: RankKey)
    requires Sorted(s, key)
    ensures WithKey(Insert(s, x, key), key, k) == WithKey(s, key, k) + (if key(x) == k then [x] else [])
  {
    if s == [] {
    } else if !KeyLe(key(s[0]), key(x)) {
      if key(x) == k {
        KeyLeReflexive(k);
        forall j | 0 <= j < |s| ensures key(s[j]) != k {
          if j > 0 {
            assert KeyLe(key(s[0]), key(s[j]));
          }
        }
        WithKeyNone(s, key, k);
      }
      assert Insert(s, x, key) == [x] + s;
      WithKeyAppend([x], s, key, k);
    } else {
      InsertWithKey(s[1..], x, key, k);
    }
  }

  lemma {:induction false} WithKeyNone<T>(s: seq<T>, key: T -> RankKey, k: RankKey)
    requires forall j :: 0 <= j < |s| ==> key(s[j]) != k
    ensures WithKey(s, key, k) == []
  {
    if s != [] {
      WithKeyNone(s[1..], key, k);
    }
  }

  /**
   * The sorted order: a permutation of `s`, ordered by key, and stable (the elements with
   * any one key keep their relative order).
   */
  function SortByRank<T>(s: seq<T>, key: T -> RankKey): (r: seq<T>)
    ensures multiset(r) == multiset(s)
    ensures Sorted(r, key)
    ensures forall k :: WithKey(r, key, k) == WithKey(s, key, k)
  {
    if s == [] then []
    else
      var init := s[..|s| - 1];
      var rest := SortByRank(init, key);
      InsertPermutes(rest, s[|s| - 1], key);
      InsertSorted(rest, s[|s| - 1], key);
      assert s == init + [s[|s| - 1]];
      assert forall k :: WithKey(Insert(rest, s[|s| - 1], key), key, k) == WithKey(s, key, k) by {
        forall k ensures WithKey(Insert(rest, s[|s| - 1], key), key, k) == WithKey(s, key, k) {
          InsertWithKey(rest, s[|s| - 1], key, k);
          WithKeyAppend(init, [s[|s| - 1]], key, k);
        }
      }
      Insert(rest, s[|s| - 1], key)
  }

  /** In sorted output, an element whose score is strictly higher comes first. */
  lemma HigherScoreFirst<T>(s: seq<T>, key: T -> RankKey, i: nat, j: nat)
    requires Sorted(s, key) && i < |s| && j < |s|
    requires key(s[i]).score > key(s[j]).score
    ensures i < j
  {
  }
}
