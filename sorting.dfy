/** A stable sort by a "may come before" relation, the model of
    JavaScript's `Array.prototype.sort` (stable since ES2019) with a
    comparator `cmp`, where `Before(a, b)` stands for `cmp(a, b) <= 0`,
    and of Python's `sorted`. */
module Sorting {

  /** `before` is a total preorder: any two elements can be compared,
      and the relation is transitive. */
  ghost predicate TotalPreorder<T(!new)>(before: (T, T) -> bool) {
    && (forall a, b :: before(a, b) || before(b, a))
    && (forall a, b, c :: before(a, b) && before(b, c) ==> before(a, c))
  }

  /** Every element may come before every later one. */
  ghost predicate SortedBy<T>(s: seq<T>, before: (T, T) -> bool) {
    forall i, j :: 0 <= i < j < |s| ==> before(s[i], s[j])
  }

  /** Inserts `x` after every leading element that may come before it,
      so that `x` lands behind the elements it ties with. */
  function Insert<T>(x: T, s: seq<T>, before: (T, T) -> bool): (r: seq<T>)
    ensures multiset(r) == multiset(s) + multiset{x}
    ensures |r| == |s| + 1
  {
    if s == [] then [x]
    else if before(s[0], x) then
      assert s == [s[0]] + s[1..];
      [s[0]] + Insert(x, s[1..], before)
    else [x] + s
  }

  /** Insertion sort: the last element goes into the sorted prefix. */
  function Sort<T>(s: seq<T>, before: (T, T) -> bool): (r: seq<T>)
    ensures multiset(r) == multiset(s)
    ensures |r| == |s|
  {
    if s == [] then []
    else
      assert s == s[..|s| - 1] + [s[|s| - 1]];
      Insert(s[|s| - 1], Sort(s[..|s| - 1], before), before)
  }

  lemma {:induction false} InsertSorted<T(!new)>(x: T, s: seq<T>, before: (T, T) -> bool)
    requires TotalPreorder(before)
    requires SortedBy(s, before)
    ensures SortedBy(Insert(x, s, before), before)
  {
    if s != [] {
      if before(s[0], x) {
        var t := Insert(x, s[1..], before);
        InsertSorted(x, s[1..], before);
        forall k | 0 <= k < |t|
          ensures before(s[0], t[k])
        {
          assert t[k] in multiset(t);
          if t[k] != x {
            assert t[k] in multiset(s[1..]);
            var m :| 0 <= m < |s[1..]| && s[1..][m] == t[k];
            assert s[1 + m] == t[k];
          }
        }
        var r := [s[0]] + t;
        forall i, j | 0 <= i < j < |r|
          ensures before(r[i], r[j])
        {
          if i > 0 {
            assert r[i] == t[i - 1] && r[j] == t[j - 1];
          } else {
            assert r[j] == t[j - 1];
          }
        }
      } else {
        var r := [x] + s;
        forall i, j | 0 <= i < j < |r|
          ensures before(r[i], r[j])
        {
          if i == 0 {
            assert before(x, s[0]);
            if j > 1 {
              assert before(s[0], s[j - 1]);
            }
          }
        }
      }
    }
  }

  lemma {:induction false} SortSorted<T(!new)>(s: seq<T>, before: (T, T) -> bool)
    requires TotalPreorder(before)
    ensures SortedBy(Sort(s, before), before)
  {
    if s != [] {
      SortSorted(s[..|s| - 1], before);
      InsertSorted(s[|s| - 1], Sort(s[..|s| - 1], before), before);
    }
  }

  /** The elements of `s` that tie with `y` (each may come before the
      other), in their order in `s`. */
  function TiedWith<T>(s: seq<T>, y: T, before: (T, T) -> bool): (r: seq<T>)
    ensures forall k :: 0 <= k < |r| ==> before(r[k], y) && before(y, r[k])
  {
    if s == [] then []
    else
      assert s == [s[0]] + s[1..];
      (if before(s[0], y) && before(y, s[0]) then [s[0]] else []) + TiedWith(s[1..], y, before)
  }

  lemma {:induction false} TiedWithAppend<T>(a: seq<T>, b: seq<T>, y: T, before: (T, T) -> bool)
    ensures TiedWith(a + b, y, before) == TiedWith(a, y, before) + TiedWith(b, y, before)
  {
    if a == [] {
      assert a + b == b;
    } else {
      assert (a + b)[0] == a[0];
      assert (a + b)[1..] == a[1..] + b;
      TiedWithAppend(a[1..], b, y, before);
    }
  }

  lemma {:induction false} TiedWithNone<T>(s: seq<T>, y: T, before: (T, T) -> bool)
    requires forall k :: 0 <= k < |s| ==> !(before(s[k], y) && before(y, s[k]))
    ensures TiedWith(s, y, before) == []
  {
    if s != [] {
      TiedWithNone(s[1..], y, before);
    }
  }

  /** When `x` ties with `y` and every element of the sorted `s` comes
      strictly after `x`, no element of `s` ties with `y`. */
  lemma {:induction false} NoneTiedAfter<T(!new)>(x: T, s: seq<T>, y: T, before: (T, T) -> bool)
    requires TotalPreorder(before)
    requires SortedBy(s, before)
    requires s != [] && !before(s[0], x)
    requires before(x, y) && before(y, x)
    ensures TiedWith(s, y, before) == []
  {
    forall k | 0 <= k < |s|
      ensures !(before(s[k], y) && before(y, s[k]))
    {
      if k > 0 {
        assert before(s[0], s[k]);
      }
    }
    TiedWithNone(s, y, before);
  }

  /** `x` moves past a leading element that may come before it. */
  lemma InsertPast<T>(x: T, s: seq<T>, before: (T, T) -> bool)
    requires s != [] && before(s[0], x)
    ensures Insert(x, s, before) == [s[0]] + Insert(x, s[1..], before)
  {
  }

  /** `TiedWith` on a list with a known first element. */
  lemma TiedWithCons<T>(a: T, t: seq<T>, y: T, before: (T, T) -> bool)
    ensures TiedWith([a] + t, y, before)
         == (if before(a, y) && before(y, a) then [a] else []) + TiedWith(t, y, before)
  {
    var r := [a] + t;
    assert r[0] == a && r[1..] == t;
  }

  /** The step of `InsertStable` where `x` moves past `s[0]`. */
  lemma {:induction false} InsertStableStep<T>(x: T, s: seq<T>, y: T, before: (T, T) -> bool)
    requires s != [] && before(s[0], x)
    requires TiedWith(Insert(x, s[1..], before), y, before)
          == TiedWith(s[1..], y, before) + TiedWith([x], y, before)
    ensures TiedWith(Insert(x, s, before), y, before)
         == TiedWith(s, y, before) + TiedWith([x], y, before)
  {
    var t := Insert(x, s[1..], before);
    InsertPast(x, s, before);
    TiedWithCons(s[0], t, y, before);
    TiedWithCons(s[0], s[1..], y, before);
    assert [s[0]] + s[1..] == s;
    var head := if before(s[0], y) && before(y, s[0]) then [s[0]] else [];
    var rest, tx := TiedWith(s[1..], y, before), TiedWith([x], y, before);
    assert head + (rest + tx) == (head + rest) + tx;
  }

  lemma {:induction false} InsertStable<T(!new)>(x: T, s: seq<T>, y: T, before: (T, T) -> bool)
    requires TotalPreorder(before)
    requires SortedBy(s, before)
    ensures TiedWith(Insert(x, s, before), y, before)
         == TiedWith(s, y, before) + TiedWith([x], y, before)
  {
    if s == [] {
      assert TiedWith(s, y, before) == [];
    } else if before(s[0], x) {
      assert SortedBy(s[1..], before);
      InsertStable(x, s[1..], y, before);
      InsertStableStep(x, s, y, before);
    } else {
      assert Insert(x, s, before) == [x] + s;
      TiedWithAppend([x], s, y, before);
      if before(x, y) && before(y, x) {
        NoneTiedAfter(x, s, y, before);
      } else {
        assert TiedWith([x], y, before) == [];
      }
    }
  }

  /** The last element goes into the sorted rest. */
  lemma SortLast<T>(s: seq<T>, before: (T, T) -> bool)
    requires s != []
    ensures Sort(s, before) == Insert(s[|s| - 1], Sort(s[..|s| - 1], before), before)
  {
  }

  /** Inserting into a sorted list appends the new element's tie, if
      it ties, after the ties already there. */
  lemma InsertIntoSortStable<T(!new)>(init: seq<T>, last: T, y: T, before: (T, T) -> bool)
    requires TotalPreorder(before)
    ensures TiedWith(Insert(last, Sort(init, before), before), y, before)
         == TiedWith(Sort(init, before), y, before) + TiedWith([last], y, before)
  {
    SortSorted(init, before);
    InsertStable(last, Sort(init, before), y, before);
  }

  /** The step of `SortStable` that inserts the last element. */
  lemma SortStableStep<T>(init: seq<T>, last: T, y: T, before: (T, T) -> bool)
    requires TiedWith(Sort(init, before), y, before) == TiedWith(init, y, before)
    requires TiedWith(Insert(last, Sort(init, before), before), y, before)
          == TiedWith(Sort(init, before), y, before) + TiedWith([last], y, before)
    ensures TiedWith(Sort(init + [last], before), y, before) == TiedWith(init + [last], y, before)
  {
    var s := init + [last];
    assert s[..|s| - 1] == init && s[|s| - 1] == last;
    SortLast(s, before);
    TiedWithAppend(init, [last], y, before);
  }

  /** The sort is stable: elements that tie keep their input order. */
  lemma {:induction false} SortStable<T(!new)>(s: seq<T>, y: T, before: (T, T) -> bool)
    requires TotalPreorder(before)
    ensures TiedWith(Sort(s, before), y, before) == TiedWith(s, y, before)
  {
    if s != [] {
      var init, last := s[..|s| - 1], s[|s| - 1];
      SortStable(init, y, before);
      InsertIntoSortStable(init, last, y, before);
      SortStableStep(init, last, y, before);
      assert s == init + [last];
    }
  }

  /** No element occurs twice. */
  predicate NoDuplicates<T(==)>(s: seq<T>) {
    forall i, j :: 0 <= i < j < |s| ==> s[i] != s[j]
  }

  lemma {:induction false} NoDuplicatesCount<T>(s: seq<T>, x: T)
    requires NoDuplicates(s)
    ensures multiset(s)[x] <= 1
  {
    if s != [] {
      NoDuplicatesCount(s[1..], x);
      assert s == [s[0]] + s[1..];
      if s[0] == x {
        assert x !in s[1..];
      }
    }
  }

  /** A rearrangement of a list without duplicates has none either. */
  lemma {:induction false} PermutationKeepsNoDuplicates<T>(s: seq<T>, t: seq<T>)
    requires NoDuplicates(s)
    requires multiset(s) == multiset(t)
    ensures NoDuplicates(t)
  {
    forall i, j | 0 <= i < j < |t|
      ensures t[i] != t[j]
    {
      if t[i] == t[j] {
        var x := t[i];
        assert t == t[..i] + [x] + t[i + 1..j] + [x] + t[j + 1..];
        assert multiset(t)[x] >= 2;
        NoDuplicatesCount(s, x);
        assert false;
      }
    }
  }
}
