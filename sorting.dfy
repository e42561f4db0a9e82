/**
 * `Array.prototype.sort` with a numeric comparator, as the app uses it:
 * a stable insertion sort on a key, non-increasing (`b.k - a.k`) or
 * non-decreasing (`a.k - b.k`).
 */
module Sorting {

  predicate SortedDesc<T>(s: seq<T>, key: T -> real)
  {
    forall i, j :: 0 <= i < j < |s| ==> key(s[i]) >= key(s[j])
  }

  predicate SortedAsc<T>(s: seq<T>, key: T -> real)
  {
    forall i, j :: 0 <= i < j < |s| ==> key(s[i]) <= key(s[j])
  }

  /** Prepending an element at least as large as the head keeps the order. */
  lemma SortedDescCons<T>(h: T, t: seq<T>, key: T -> real)
    requires SortedDesc(t, key)
    requires |t| > 0 ==> key(h) >= key(t[0])
    ensures SortedDesc([h] + t, key)
  {
    forall i, j | 0 <= i < j < |[h] + t| ensures key(([h] + t)[i]) >= key(([h] + t)[j]) {
      if i == 0 && j > 1 {
        assert key(t[0]) >= key(t[j - 1]);
      }
    }
  }

  /** Inserts `x` after every element whose key is at least its own. */
  function InsertDesc<T>(x: T, s: seq<T>, key: T -> real): (r: seq<T>)
    requires SortedDesc(s, key)
    ensures |r| == |s| + 1
    ensures multiset(r) == multiset(s) + multiset{x}
    ensures SortedDesc(r, key)
    ensures r[0] == x || (|s| > 0 && r[0] == s[0])
  {
    if |s| == 0 then [x]
    else if key(s[0]) >= key(x) then
      var t := InsertDesc(x, s[1..], key);
      assert s == [s[0]] + s[1..];
      SortedDescCons(s[0], t, key);
      [s[0]] + t
    else
      SortedDescCons(x, s, key);
      [x] + s
  }

  /** The stable sort by non-increasing key. */
  function SortDesc<T>(s: seq<T>, key: T -> real): (r: seq<T>)
    ensures |r| == |s|
    ensures multiset(r) == multiset(s)
    ensures SortedDesc(r, key)
  {
    if |s| == 0 then []
    else
      assert s == s[..|s| - 1] + [s[|s| - 1]];
      InsertDesc(s[|s| - 1], SortDesc(s[..|s| - 1], key), key)
  }

  /** An element no larger than any other goes last. */
  lemma {:induction false} InsertDescLast<T>(x: T, s: seq<T>, key: T -> real)
    requires SortedDesc(s, key)
    requires forall i :: 0 <= i < |s| ==> key(s[i]) >= key(x)
    ensures InsertDesc(x, s, key) == s + [x]
  {
    if |s| > 0 {
      assert s == [s[0]] + s[1..];
      InsertDescLast(x, s[1..], key);
    }
  }

  /** When every key is equal the sort changes nothing: ties keep their order. */
  lemma {:induction false} SortDescEqualKeys<T>(s: seq<T>, key: T -> real)
    requires forall i :: 0 <= i < |s| ==> key(s[i]) == key(s[0])
    ensures SortDesc(s, key) == s
  {
    if |s| > 0 {
      var p, x := s[..|s| - 1], s[|s| - 1];
      assert s == p + [x];
      assert SortDesc(s, key) == InsertDesc(x, SortDesc(p, key), key);
      assert forall i :: 0 <= i < |p| ==> key(p[i]) == key(x) by {
        assert forall i :: 0 <= i < |p| ==> p[i] == s[i];
      }
      assert SortDesc(p, key) == p by {
        if |p| > 0 {
          SortDescEqualKeys(p, key);
        }
      }
      InsertDescLast(x, p, key);
    }
  }

  /** The stable sort by non-decreasing key. */
  function SortAsc<T>(s: seq<T>, key: T -> real): (r: seq<T>)
    ensures |r| == |s|
    ensures multiset(r) == multiset(s)
    ensures SortedAsc(r, key)
  {
    var r := SortDesc(s, x => -key(x));
    assert SortedDesc(r, x => -key(x));
    r
  }

  /** `reduce((acc, x) => acc + f(x), 0)`. */
  function Total<T>(s: seq<T>, f: T -> real): real
  {
    if |s| == 0 then 0.0 else f(s[0]) + Total(s[1..], f)
  }

  /** A total over a concatenation adds the parts' totals. */
  lemma {:induction false} TotalAppend<T>(a: seq<T>, b: seq<T>, f: T -> real)
    ensures Total(a + b, f) == Total(a, f) + Total(b, f)
  {
    if |a| > 0 {
      assert (a + b)[1..] == a[1..] + b;
      TotalAppend(a[1..], b, f);
    } else {
      assert a + b == b;
    }
  }

  /** One more element at the end adds its value to the total. */
  lemma TotalSnoc<T>(s: seq<T>, x: T, f: T -> real)
    ensures Total(s + [x], f) == Total(s, f) + f(x)
  {
    TotalAppend(s, [x], f);
    assert Total([x], f) == f(x) + Total([x][1..], f);
  }

  /** Replacing one element changes the total by the difference. */
  lemma {:induction false} TotalUpdate<T>(s: seq<T>, i: nat, x: T, f: T -> real)
    requires i < |s|
    ensures Total(s[i := x], f) == Total(s, f) - f(s[i]) + f(x)
  {
    if i > 0 {
      TotalUpdate(s[1..], i - 1, x, f);
      assert s[i := x][1..] == s[1..][i - 1 := x];
    } else {
      assert s[i := x][1..] == s[1..];
    }
  }

  /** Inserting an element adds its value to the total. */
  lemma {:induction false} TotalInsertDesc<T>(x: T, s: seq<T>, key: T -> real, f: T -> real)
    requires SortedDesc(s, key)
    ensures Total(InsertDesc(x, s, key), f) == f(x) + Total(s, f)
  {
    if |s| > 0 && key(s[0]) >= key(x) {
      assert SortedDesc(s[1..], key);
      TotalInsertDesc(x, s[1..], key, f);
      assert InsertDesc(x, s, key)[1..] == InsertDesc(x, s[1..], key);
    }
  }

  /** Sorting does not change a total. */
  lemma {:induction false} TotalSortDesc<T>(s: seq<T>, key: T -> real, f: T -> real)
    ensures Total(SortDesc(s, key), f) == Total(s, f)
  {
    if |s| > 0 {
      var p, x := s[..|s| - 1], s[|s| - 1];
      assert s == p + [x];
      TotalSortDesc(p, key, f);
      TotalInsertDesc(x, SortDesc(p, key), key, f);
      TotalAppend(p, [x], f);
      assert Total([x], f) == f(x) + Total([x][1..], f);
    }
  }

  /** Elements of a permutation are the elements of the original. */
  lemma PermutationMembers<T>(r: seq<T>, s: seq<T>)
    requires multiset(r) == multiset(s)
    ensures forall x :: x in r <==> x in s
  {
    forall x ensures x in r <==> x in s {
      assert x in r <==> x in multiset(r);
      assert x in s <==> x in multiset(s);
    }
  }
}
