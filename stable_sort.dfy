/** `Array.prototype.sort` with a comparator, which is stable: elements the
    comparator calls equal keep their relative order. The comparator's result is
    a number whose sign decides the order. */
module StableSort {

  /** `cmp` is a consistent comparison on the elements of `all`: the sign flips
      when the arguments are swapped, and "not after" is transitive. */
  ghost predicate ConsistentOn<T>(cmp: (T, T) -> real, all: seq<T>)
  {
    && (forall a, b :: a in all && b in all ==> (cmp(a, b) < 0.0 <==> cmp(b, a) > 0.0))
    && (forall a, b, c {:trigger a in all, b in all, c in all} ::
          a in all && b in all && c in all && cmp(a, b) <= 0.0 && cmp(b, c) <= 0.0
          ==> cmp(a, c) <= 0.0)
  }

  ghost predicate Sorted<T>(s: seq<T>, cmp: (T, T) -> real)
  {
    forall i, j :: 0 <= i < j < |s| ==> cmp(s[i], s[j]) <= 0.0
  }

  /** The elements of `s` the comparator puts level with `y`, in order. */
  function Class<T>(s: seq<T>, cmp: (T, T) -> real, y: T): (r: seq<T>)
    ensures |r| <= |s|
  {
    if s == [] then []
    else if cmp(s[0], y) == 0.0 then [s[0]] + Class(s[1..], cmp, y)
    else Class(s[1..], cmp, y)
  }

  /** Puts `x` after every element of `s` that does not compare greater than it. */
  function Insert<T>(x: T, s: seq<T>, cmp: (T, T) -> real): (r: seq<T>)
    ensures multiset(r) == multiset(s) + multiset{x}
  {
    if s == [] then [x]
    else if cmp(x, s[0]) < 0.0 then [x] + s
    else
      assert s == [s[0]] + s[1..];
      [s[0]] + Insert(x, s[1..], cmp)
  }

  /** The sorted copy of `s`, built by inserting the elements in their original order. */
  function Sort<T>(s: seq<T>, cmp: (T, T) -> real): (r: seq<T>)
    ensures multiset(r) == multiset(s)
  {
    if s == [] then []
    else
      assert s == s[..|s| - 1] + [s[|s| - 1]];
      Insert(s[|s| - 1], Sort(s[..|s| - 1], cmp), cmp)
  }

  lemma {:induction false} InsertSorted<T>(x: T, s: seq<T>, cmp: (T, T) -> real, all: seq<T>)
    requires ConsistentOn(cmp, all)
    requires x in all && forall i :: 0 <= i < |s| ==> s[i] in all
    requires Sorted(s, cmp)
    ensures Sorted(Insert(x, s, cmp), cmp)
  {
    if s != [] {
      if cmp(x, s[0]) < 0.0 {
        var r := [x] + s;
        forall i, j | 0 <= i < j < |r| ensures cmp(r[i], r[j]) <= 0.0 {
          if i == 0 {
            assert s[0] in all && s[j - 1] in all;
            assert cmp(s[0], s[j - 1]) <= 0.0 || j == 1;
          }
        }
      } else {
        assert s[0] in all;
        InsertSorted(x, s[1..], cmp, all);
        var t := Insert(x, s[1..], cmp);
        var r := [s[0]] + t;
        forall i, j | 0 <= i < j < |r| ensures cmp(r[i], r[j]) <= 0.0 {
          if i == 0 {
            assert r[j] in multiset(t);
            assert r[j] == x || r[j] in multiset(s[1..]);
            if r[j] != x {
              var k :| 1 <= k < |s| && s[k] == r[j];
            }
          }
        }
      }
    }
  }

  /** The result of `Sort` is ordered by `cmp`. */
  lemma {:induction false} SortSorted<T>(s: seq<T>, cmp: (T, T) -> real)
    requires ConsistentOn(cmp, s)
    ensures Sorted(Sort(s, cmp), cmp)
  {
    if s != [] {
      var init := s[..|s| - 1];
      ConsistentOnSub(cmp, s, init);
      SortSorted(init, cmp);
      var sorted := Sort(init, cmp);
      forall i | 0 <= i < |sorted| ensures sorted[i] in s {
        assert sorted[i] in multiset(init);
      }
      InsertSorted(s[|s| - 1], sorted, cmp, s);
    }
  }

  lemma ConsistentOnSub<T>(cmp: (T, T) -> real, all: seq<T>, part: seq<T>)
    requires ConsistentOn(cmp, all)
    requires forall x :: x in part ==> x in all
    ensures ConsistentOn(cmp, part)
  {
    forall a, b, c | a in part && b in part && c in part && cmp(a, b) <= 0.0 && cmp(b, c) <= 0.0
      ensures cmp(a, c) <= 0.0
    {
      assert a in all && b in all && c in all;
    }
  }

  lemma {:induction false} ClassAppend<T>(a: seq<T>, b: seq<T>, cmp: (T, T) -> real, y: T)
    ensures Class(a + b, cmp, y) == Class(a, cmp, y) + Class(b, cmp, y)
  {
    if a == [] {
      assert a + b == b;
    } else {
      assert (a + b)[1..] == a[1..] + b;
      ClassAppend(a[1..], b, cmp, y);
    }
  }

  lemma {:induction false} ClassEmpty<T>(s: seq<T>, cmp: (T, T) -> real, y: T)
    requires forall i :: 0 <= i < |s| ==> cmp(s[i], y) != 0.0
    ensures Class(s, cmp, y) == []
  {
    if s != [] {
      ClassEmpty(s[1..], cmp, y);
    }
  }

  /** Inserting `x` appends it to its own class and leaves the other classes alone. */
  lemma {:induction false} InsertClass<T>(x: T, s: seq<T>, cmp: (T, T) -> real, all: seq<T>, y: T)
    requires ConsistentOn(cmp, all)
    requires x in all && y in all && forall i :: 0 <= i < |s| ==> s[i] in all
    requires Sorted(s, cmp)
    ensures Class(Insert(x, s, cmp), cmp, y)
         == Class(s, cmp, y) + (if cmp(x, y) == 0.0 then [x] else [])
  {
    if s == [] {
      assert Class([x], cmp, y) == (if cmp(x, y) == 0.0 then [x] else []);
    } else if cmp(x, s[0]) < 0.0 {
      assert ([x] + s)[1..] == s;
      if cmp(x, y) == 0.0 {
        forall i | 0 <= i < |s| ensures cmp(s[i], y) != 0.0 {
          assert s[0] in all && s[i] in all;
          assert cmp(s[0], s[i]) <= 0.0 || i == 0;
          assert cmp(x, s[i]) < 0.0;
        }
        ClassEmpty(s, cmp, y);
      }
    } else {
      InsertClass(x, s[1..], cmp, all, y);
      assert ([s[0]] + Insert(x, s[1..], cmp))[1..] == Insert(x, s[1..], cmp);
    }
  }

  /** `Sort` keeps the relative order of the elements in every class. */
  lemma SortStable<T>(s: seq<T>, cmp: (T, T) -> real, y: T)
    requires ConsistentOn(cmp, s) && y in s
    ensures Class(Sort(s, cmp), cmp, y) == Class(s, cmp, y)
  {
    SortStableIn(s, cmp, s, y);
  }

  /** `SortStable` for a `y` that need not occur in `s` but is comparable with it. */
  lemma {:induction false} SortStableIn<T>(s: seq<T>, cmp: (T, T) -> real, all: seq<T>, y: T)
    requires ConsistentOn(cmp, all) && y in all
    requires forall x :: x in s ==> x in all
    ensures Class(Sort(s, cmp), cmp, y) == Class(s, cmp, y)
  {
    if s != [] {
      var n := |s| - 1;
      var init := s[..n];
      assert s == init + [s[n]];
      assert forall x :: x in init ==> x in s;
      SortStableIn(init, cmp, all, y);
      SortedWithin(init, cmp, all);
      InsertClass(s[n], Sort(init, cmp), cmp, all, y);
      ClassAppend(init, [s[n]], cmp, y);
    }
  }

  /** The sorted copy of a list drawn from `all` is ordered and still drawn from `all`. */
  lemma SortedWithin<T>(s: seq<T>, cmp: (T, T) -> real, all: seq<T>)
    requires ConsistentOn(cmp, all)
    requires forall x :: x in s ==> x in all
    ensures Sorted(Sort(s, cmp), cmp)
    ensures forall i :: 0 <= i < |Sort(s, cmp)| ==> Sort(s, cmp)[i] in all
  {
    ConsistentOnSub(cmp, all, s);
    SortSorted(s, cmp);
    var sorted := Sort(s, cmp);
    forall i | 0 <= i < |sorted| ensures sorted[i] in all {
      assert sorted[i] in multiset(s);
    }
  }

  /** A comparator that calls everything equal leaves the order unchanged. */
  lemma {:induction false} SortAllEqual<T>(s: seq<T>, cmp: (T, T) -> real)
    requires forall a, b :: a in s && b in s ==> cmp(a, b) == 0.0
    ensures Sort(s, cmp) == s
  {
    if s != [] {
      var n := |s| - 1;
      SortAllEqual(s[..n], cmp);
      InsertLevel(s[n], s[..n], cmp);
      assert s[..n] + [s[n]] == s;
    }
  }

  lemma {:induction false} InsertLevel<T>(x: T, s: seq<T>, cmp: (T, T) -> real)
    requires forall i :: 0 <= i < |s| ==> cmp(x, s[i]) == 0.0
    ensures Insert(x, s, cmp) == s + [x]
  {
    if s != [] {
      InsertLevel(x, s[1..], cmp);
      assert [s[0]] + (s[1..] + [x]) == s + [x];
    }
  }
}
