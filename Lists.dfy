/**
 * Sequence operations the site's scripts rely on: JavaScript's
 * `Array.prototype.filter` and `Array.prototype.sort(comparator)`.
 *
 * `sort` is modelled as a stable insertion sort that places each element
 * before the first one it compares below. For a consistent comparator this
 * is the unique stable order; for an inconsistent one only the permutation
 * property is claimed.
 */
module Lists {
  import opened Wrappers

  /** The elements of `s` that satisfy `p`, in their original order. */
  function Filter<T>(s: seq<T>, p: T -> bool): (r: seq<T>)
    ensures |r| <= |s|
    ensures forall x :: x in r ==> x in s && p(x)
    ensures forall x :: x in s ==> (x in r <==> p(x))
    ensures IsSubsequence(r, s)
  {
    if s == [] then []
    else
      var init, last := s[..|s| - 1], s[|s| - 1];
      var f := Filter(init, p);
      assert s == init + [last];
      if p(last) then
        assert (f + [last])[..|f|] == f;
        f + [last]
      else
        f
  }

  /** Extending the input by one element extends the filtered output by at most that element. */
  lemma FilterSnoc<T>(s: seq<T>, x: T, p: T -> bool)
    ensures Filter(s + [x], p) == Filter(s, p) + (if p(x) then [x] else [])
  {
    assert (s + [x])[..|s + [x]| - 1] == s;
  }

  /** Filtering by a predicate that holds of every element changes nothing. */
  lemma {:induction false} FilterAll<T>(s: seq<T>, p: T -> bool)
    requires forall x :: x in s ==> p(x)
    ensures Filter(s, p) == s
  {
    if s != [] {
      FilterAll(s[..|s| - 1], p);
      assert s[..|s| - 1] + [s[|s| - 1]] == s;
    }
  }

  /** `r` can be obtained from `s` by deleting elements, keeping the order. */
  ghost predicate IsSubsequence<T>(r: seq<T>, s: seq<T>)
    decreases |s|
  {
    r == [] ||
    (s != [] &&
     ((r[|r| - 1] == s[|s| - 1] && IsSubsequence(r[..|r| - 1], s[..|s| - 1]))
      || IsSubsequence(r, s[..|s| - 1])))
  }

  lemma {:induction false} SubsequenceReflexive<T>(s: seq<T>)
    ensures IsSubsequence(s, s)
  {
    if s != [] {
      SubsequenceReflexive(s[..|s| - 1]);
    }
  }

  ghost predicate Distinct<T>(s: seq<T>) {
    forall i, j :: 0 <= i < j < |s| ==> s[i] != s[j]
  }

  /** The elements of a finite set, each once, in some order. */
  ghost function SetToSeq<T(!new)>(s: set<T>): (r: seq<T>)
    ensures Distinct(r)
    ensures forall x :: x in r <==> x in s
  {
    if s == {} then []
    else
      var x :| x in s;
      [x] + SetToSeq(s - {x})
  }

  /** Every earlier element compares at most equal to every later one. */
  ghost predicate SortedBy<T>(s: seq<T>, cmp: (T, T) -> int) {
    forall i, j :: 0 <= i < j < |s| ==> cmp(s[i], s[j]) <= 0
  }

  /** A comparator in the sense `Array.prototype.sort` expects: it orders consistently. */
  ghost predicate IsComparator<T(!new)>(cmp: (T, T) -> int) {
    && (forall a, b :: cmp(a, b) >= 0 ==> cmp(b, a) <= 0)
    && (forall a, b, c :: cmp(a, b) <= 0 && cmp(b, c) <= 0 ==> cmp(a, c) <= 0)
  }

  /** Places `x` in front of the first element of `t` that it compares below. */
  function Insert<T>(x: T, t: seq<T>, cmp: (T, T) -> int): (r: seq<T>)
    ensures |r| == |t| + 1
  {
    if t == [] then [x]
    else if cmp(x, t[0]) < 0 then [x] + t
    else [t[0]] + Insert(x, t[1..], cmp)
  }

  /** Inserting adds exactly the one element. */
  lemma {:induction false} InsertPermutes<T>(x: T, t: seq<T>, cmp: (T, T) -> int)
    ensures multiset(Insert(x, t, cmp)) == multiset(t) + multiset{x}
  {
    if t != [] && cmp(x, t[0]) >= 0 {
      InsertPermutes(x, t[1..], cmp);
      assert t == [t[0]] + t[1..];
    }
  }

  /** `s.sort(cmp)`: insertion sort, taking the elements from left to right. */
  function SortWith<T>(s: seq<T>, cmp: (T, T) -> int): (r: seq<T>)
    ensures |r| == |s|
  {
    if s == [] then [] else Insert(s[|s| - 1], SortWith(s[..|s| - 1], cmp), cmp)
  }

  /** Sorting rearranges: the output holds the input's elements, each as often. */
  lemma {:induction false} SortWithPermutes<T>(s: seq<T>, cmp: (T, T) -> int)
    ensures multiset(SortWith(s, cmp)) == multiset(s)
  {
    if s != [] {
      var init, last := s[..|s| - 1], s[|s| - 1];
      SortWithPermutes(init, cmp);
      InsertPermutes(last, SortWith(init, cmp), cmp);
      assert s == init + [last];
    }
  }

  /** Inserting adds `x` and keeps every element of `t`. */
  lemma {:induction false} InsertMembers<T>(x: T, t: seq<T>, cmp: (T, T) -> int)
    ensures forall y :: y in Insert(x, t, cmp) <==> y == x || y in t
  {
    if t != [] && cmp(x, t[0]) >= 0 {
      InsertMembers(x, t[1..], cmp);
      assert t == [t[0]] + t[1..];
    }
  }

  lemma SortedTail<T>(t: seq<T>, cmp: (T, T) -> int)
    requires t != [] && SortedBy(t, cmp)
    ensures SortedBy(t[1..], cmp)
    ensures forall y :: y in t[1..] ==> cmp(t[0], y) <= 0
  {
    var rest := t[1..];
    forall i, j | 0 <= i < j < |rest| ensures cmp(rest[i], rest[j]) <= 0 {
      assert rest[i] == t[i + 1] && rest[j] == t[j + 1];
    }
    forall y | y in rest ensures cmp(t[0], y) <= 0 {
      var k :| 0 <= k < |rest| && rest[k] == y;
      assert t[k + 1] == y;
    }
  }

  /** A sorted sequence stays sorted with an element in front that compares at most equal to all of it. */
  lemma ConsSorted<T>(h: T, r: seq<T>, cmp: (T, T) -> int)
    requires SortedBy(r, cmp) && forall y :: y in r ==> cmp(h, y) <= 0
    ensures SortedBy([h] + r, cmp)
  {
    var out := [h] + r;
    forall i, j | 0 <= i < j < |out| ensures cmp(out[i], out[j]) <= 0 {
      assert out[j] == r[j - 1] && out[j] in r;
      if i > 0 {
        assert out[i] == r[i - 1];
      }
    }
  }

  lemma {:induction false} InsertSorted<T(!new)>(x: T, t: seq<T>, cmp: (T, T) -> int)
    requires IsComparator(cmp) && SortedBy(t, cmp)
    ensures SortedBy(Insert(x, t, cmp), cmp)
  {
    if t == [] {
    } else if cmp(x, t[0]) < 0 {
      SortedTail(t, cmp);
      forall y | y in t ensures cmp(x, y) <= 0 {
        if y != t[0] {
          assert y in t[1..] by { var k :| 0 <= k < |t| && t[k] == y; assert t[1..][k - 1] == y; }
        }
      }
      ConsSorted(x, t, cmp);
    } else {
      var rest := t[1..];
      SortedTail(t, cmp);
      InsertSorted(x, rest, cmp);
      InsertMembers(x, rest, cmp);
      ConsSorted(t[0], Insert(x, rest, cmp), cmp);
    }
  }

  /** With a consistent comparator the sorted output is in order. */
  lemma {:induction false} SortWithSorted<T(!new)>(s: seq<T>, cmp: (T, T) -> int)
    requires IsComparator(cmp)
    ensures SortedBy(SortWith(s, cmp), cmp)
  {
    if s != [] {
      SortWithSorted(s[..|s| - 1], cmp);
      InsertSorted(s[|s| - 1], SortWith(s[..|s| - 1], cmp), cmp);
    }
  }

  lemma {:induction false} InsertDistinct<T>(x: T, t: seq<T>, cmp: (T, T) -> int)
    requires Distinct(t) && x !in t
    ensures Distinct(Insert(x, t, cmp))
  {
    if t != [] && cmp(x, t[0]) >= 0 {
      InsertDistinct(x, t[1..], cmp);
      var r := Insert(x, t[1..], cmp);
      InsertPermutes(x, t[1..], cmp);
      assert t[0] !in multiset(r);
    }
  }

  /** Sorting never introduces a repeated element. */
  lemma {:induction false} SortWithDistinct<T>(s: seq<T>, cmp: (T, T) -> int)
    requires Distinct(s)
    ensures Distinct(SortWith(s, cmp))
  {
    if s != [] {
      var init := s[..|s| - 1];
      SortWithDistinct(init, cmp);
      SortWithPermutes(init, cmp);
      assert s[|s| - 1] !in multiset(SortWith(init, cmp));
      InsertDistinct(s[|s| - 1], SortWith(init, cmp), cmp);
    }
  }

  /** An element that compares at least equal to every element of `t` goes to the end. */
  lemma {:induction false} InsertAtEnd<T>(x: T, t: seq<T>, cmp: (T, T) -> int)
    requires forall i :: 0 <= i < |t| ==> cmp(x, t[i]) >= 0
    ensures Insert(x, t, cmp) == t + [x]
  {
    if t != [] {
      InsertAtEnd(x, t[1..], cmp);
      assert [t[0]] + (t[1..] + [x]) == t + [x];
    }
  }

  /** Sorting leaves alone an input in which no element compares below an earlier one. */
  lemma {:induction false} SortWithPresorted<T>(s: seq<T>, cmp: (T, T) -> int)
    requires forall i, j :: 0 <= i < j < |s| ==> cmp(s[j], s[i]) >= 0
    ensures SortWith(s, cmp) == s
  {
    if s != [] {
      var init := s[..|s| - 1];
      SortWithPresorted(init, cmp);
      InsertAtEnd(s[|s| - 1], init, cmp);
      assert init + [s[|s| - 1]] == s;
    }
  }

  /** The present values, in order: `filter(Boolean)` on an array of objects and nulls. */
  function Somes<T>(s: seq<Option<T>>): (r: seq<T>)
    ensures |r| <= |s|
    ensures forall j :: 0 <= j < |r| ==> Some(r[j]) in s
    ensures forall i :: 0 <= i < |s| && s[i].Some? ==> s[i].value in r
  {
    if s == [] then []
    else
      var init := s[..|s| - 1];
      assert s == init + [s[|s| - 1]];
      match s[|s| - 1]
      case None => Somes(init)
      case Some(x) => Somes(init) + [x]
  }

  /** A value is kept exactly when it is present somewhere in the input. */
  lemma SomesMember<T>(s: seq<Option<T>>, x: T)
    ensures x in Somes(s) <==> Some(x) in s
  {
    if x in Somes(s) {
      var j :| 0 <= j < |Somes(s)| && Somes(s)[j] == x;
    }
    if Some(x) in s {
      var i :| 0 <= i < |s| && s[i] == Some(x);
    }
  }

  /** Appending an element appends its value, if it has one. */
  lemma SomesSnoc<T>(s: seq<Option<T>>, x: Option<T>)
    ensures Somes(s + [x]) == Somes(s) + (if x.Some? then [x.value] else [])
  {
    assert (s + [x])[..|s|] == s;
  }

  /** A relation that holds between present values in input order holds along the output. */
  lemma {:induction false} SomesKeepOrder<T>(s: seq<Option<T>>, lt: (T, T) -> bool)
    requires forall i, j :: 0 <= i < j < |s| && s[i].Some? && s[j].Some? ==> lt(s[i].value, s[j].value)
    ensures forall i, j :: 0 <= i < j < |Somes(s)| ==> lt(Somes(s)[i], Somes(s)[j])
  {
    if s != [] {
      var init := s[..|s| - 1];
      SomesKeepOrder(init, lt);
      if s[|s| - 1].Some? {
        var r := Somes(init);
        var x := s[|s| - 1].value;
        forall i | 0 <= i < |r| ensures lt(r[i], x) {
          var k :| 0 <= k < |init| && init[k] == Some(r[i]);
          assert s[k] == Some(r[i]);
        }
      }
    }
  }

  /** `f` applied to each element, the results joined end to end. */
  function FlatMap<T, U>(s: seq<T>, f: T -> seq<U>): seq<U> {
    if s == [] then [] else FlatMap(s[..|s| - 1], f) + f(s[|s| - 1])
  }

  /** Mapping two runs of elements is mapping each and appending. */
  lemma {:induction false} FlatMapAppend<T, U>(a: seq<T>, b: seq<T>, f: T -> seq<U>)
    ensures FlatMap(a + b, f) == FlatMap(a, f) + FlatMap(b, f)
    decreases |b|
  {
    if b == [] {
      assert a + b == a;
    } else {
      var init := b[..|b| - 1];
      FlatMapAppend(a, init, f);
      assert (a + b)[..|a + b| - 1] == a + init;
    }
  }

  /** An element of the result comes from one of the inputs. */
  lemma {:induction false} FlatMapMember<T, U>(s: seq<T>, f: T -> seq<U>, x: U)
    ensures x in FlatMap(s, f) <==> exists i :: 0 <= i < |s| && x in f(s[i])
  {
    if s != [] {
      var init := s[..|s| - 1];
      FlatMapMember(init, f, x);
      assert forall i :: 0 <= i < |init| ==> init[i] == s[i];
    }
  }

  /** Filtering by two predicates that agree on every element gives the same result. */
  lemma {:induction false} FilterCongruent<T>(s: seq<T>, p: T -> bool, q: T -> bool)
    requires forall i :: 0 <= i < |s| ==> p(s[i]) == q(s[i])
    ensures Filter(s, p) == Filter(s, q)
  {
    if s != [] {
      FilterCongruent(s[..|s| - 1], p, q);
    }
  }
}
