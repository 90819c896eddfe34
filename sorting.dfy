/** The stable insertion sort behind `Array.prototype.sort` with a numeric
    comparator `(a, b) => key(a) - key(b)`, over an arbitrary key. */
module Sorting {
  import opened Seqs

  predicate SortedBy<T>(s: seq<T>, key: T -> int)
  {
    forall i, j :: 0 <= i < j < |s| ==> key(s[i]) <= key(s[j])
  }

  /** In a sorted sequence no element has a larger key than the last. */
  lemma SortedLastIsMax<T>(s: seq<T>, key: T -> int, x: T)
    requires SortedBy(s, key) && x in s
    ensures key(x) <= key(s[|s| - 1])
  {
    var k :| 0 <= k < |s| && s[k] == x;
    assert k == |s| - 1 || key(s[k]) <= key(s[|s| - 1]);
  }

  /** Insert `x` before the first element whose key is larger than its own. */
  function InsertBy<T>(s: seq<T>, x: T, key: T -> int): (r: seq<T>)
    ensures |r| == |s| + 1
    ensures forall i :: 0 <= i < |r| ==> r[i] == x || r[i] in s
    ensures multiset(r) == multiset(s) + multiset{x}
  {
    if |s| == 0 then [x]
    else if key(x) < key(s[0]) then [x] + s
    else
      assert s == [s[0]] + s[1..];
      [s[0]] + InsertBy(s[1..], x, key)
  }

  lemma {:induction false} InsertBySorted<T>(s: seq<T>, x: T, key: T -> int)
    requires SortedBy(s, key)
    ensures SortedBy(InsertBy(s, x, key), key)
  {
    if |s| > 0 && key(x) >= key(s[0]) {
      var t := InsertBy(s[1..], x, key);
      InsertBySorted(s[1..], x, key);
      forall k | 0 <= k < |t|
        ensures key(s[0]) <= key(t[k])
      {
        assert t[k] in t;
        if t[k] != x {
          var m :| 0 <= m < |s[1..]| && s[1..][m] == t[k];
          assert s[m + 1] == t[k];
        }
      }
    }
  }

  /** Sorts ascending by `key`, keeping equal keys in their original order. */
  function SortBy<T>(s: seq<T>, key: T -> int): (r: seq<T>)
    ensures SortedBy(r, key)
    ensures multiset(r) == multiset(s)
  {
    if |s| == 0 then []
    else
      assert s == s[..|s| - 1] + [s[|s| - 1]];
      var sorted := SortBy(s[..|s| - 1], key);
      InsertBySorted(sorted, s[|s| - 1], key);
      InsertBy(sorted, s[|s| - 1], key)
  }

  function KeyIs<T>(key: T -> int, k: int): T -> bool
  {
    x => key(x) == k
  }

  /** Inserted in front, `x` precedes every element; any of them sharing its
      key would have a key no larger than the first one's, so there is none. */
  lemma InsertFrontStable<T(!new)>(s: seq<T>, x: T, key: T -> int, k: int)
    requires SortedBy(s, key) && |s| > 0 && key(x) < key(s[0])
    ensures Filter(InsertBy(s, x, key), KeyIs(key, k)) ==
            Filter(s, KeyIs(key, k)) + (if key(x) == k then [x] else [])
  {
    var p := KeyIs(key, k);
    assert InsertBy(s, x, key) == [x] + s;
    FilterCons(x, s, p);
    if key(x) == k {
      forall i | 0 <= i < |s|
        ensures !p(s[i])
      {
        assert i == 0 || key(s[0]) <= key(s[i]);
      }
      FilterNone(s, p);
      assert [x] + [] == [] + [x];
    } else {
      assert !p(x);
      assert [] + Filter(s, p) == Filter(s, p) + [];
    }
  }

  lemma ConcatAssoc<T>(a: seq<T>, b: seq<T>, c: seq<T>)
    ensures a + (b + c) == (a + b) + c
  {
  }

  /** Inserted past the head, the head keeps its place in front of the
      elements the insertion into the tail produced. */
  lemma InsertPastHeadStable<T(!new)>(h: T, t: seq<T>, x: T, key: T -> int, k: int)
    requires key(x) >= key(h)
    requires Filter(InsertBy(t, x, key), KeyIs(key, k)) ==
             Filter(t, KeyIs(key, k)) + (if key(x) == k then [x] else [])
    ensures Filter(InsertBy([h] + t, x, key), KeyIs(key, k)) ==
            Filter([h] + t, KeyIs(key, k)) + (if key(x) == k then [x] else [])
  {
    var p := KeyIs(key, k);
    var s := [h] + t;
    assert s[0] == h && s[1..] == t;
    var head := if p(h) then [h] else [];
    var tail := if key(x) == k then [x] else [];
    assert InsertBy(s, x, key) == [h] + InsertBy(t, x, key);
    FilterCons(h, InsertBy(t, x, key), p);
    FilterCons(h, t, p);
    ConcatAssoc(head, Filter(t, p), tail);
  }

  /** Inserting keeps the elements of each key in order and puts `x` after
      those sharing its key. */
  lemma {:induction false} InsertStable<T(!new)>(s: seq<T>, x: T, key: T -> int, k: int)
    requires SortedBy(s, key)
    ensures Filter(InsertBy(s, x, key), KeyIs(key, k)) ==
            Filter(s, KeyIs(key, k)) + (if key(x) == k then [x] else [])
  {
    if |s| == 0 {
      FilterCons(x, [], KeyIs(key, k));
      assert [x] + [] == [x];
    } else if key(x) < key(s[0]) {
      InsertFrontStable(s, x, key, k);
    } else {
      assert s == [s[0]] + s[1..];
      assert SortedBy(s[1..], key);
      InsertStable(s[1..], x, key, k);
      InsertPastHeadStable(s[0], s[1..], x, key, k);
    }
  }

  /** The sort is stable: the elements sharing a key keep their relative order. */
  lemma {:induction false} SortStable<T(!new)>(s: seq<T>, key: T -> int, k: int)
    ensures Filter(SortBy(s, key), KeyIs(key, k)) == Filter(s, KeyIs(key, k))
  {
    if |s| > 0 {
      var init, x := s[..|s| - 1], s[|s| - 1];
      assert s == init + [x];
      assert SortBy(s, key) == InsertBy(SortBy(init, key), x, key);
      FilterCons(x, [], KeyIs(key, k));
      assert [x] + [] == [x];
      FilterAppend(init, [x], KeyIs(key, k));
      SortStable(init, key, k);
      InsertStable(SortBy(init, key), x, key, k);
    }
  }

  lemma {:induction false} InsertAtEnd<T>(s: seq<T>, x: T, key: T -> int)
    requires SortedBy(s + [x], key)
    ensures SortedBy(s, key)
    ensures InsertBy(s, x, key) == s + [x]
  {
    assert SortedBy(s, key) by {
      forall i, j | 0 <= i < j < |s|
        ensures key(s[i]) <= key(s[j])
      {
        assert (s + [x])[i] == s[i] && (s + [x])[j] == s[j];
      }
    }
    if |s| > 0 {
      assert (s + [x])[0] == s[0] && (s + [x])[|s|] == x;
      assert s[1..] + [x] == (s + [x])[1..];
      InsertAtEnd(s[1..], x, key);
      assert [s[0]] + (s[1..] + [x]) == s + [x];
    }
  }

  /** Sorting an already sorted sequence changes nothing. */
  lemma {:induction false} SortSorted<T>(s: seq<T>, key: T -> int)
    requires SortedBy(s, key)
    ensures SortBy(s, key) == s
  {
    if |s| > 0 {
      var init, x := s[..|s| - 1], s[|s| - 1];
      assert s == init + [x];
      InsertAtEnd(init, x, key);
      SortSorted(init, key);
    }
  }
}
