/** Python's `sorted`: a stable sort by an order that compares any two values. */
module Sorting {

  ghost predicate TotalPreorder<T(!new)>(leq: (T, T) -> bool) {
    && (forall x, y :: leq(x, y) || leq(y, x))
    && (forall x, y, z :: leq(x, y) && leq(y, z) ==> leq(x, z))
  }

  ghost predicate SortedBy<T>(s: seq<T>, leq: (T, T) -> bool) {
    forall i, j :: 0 <= i < j < |s| ==> leq(s[i], s[j])
  }

  /** Puts `x` after the last element that may stand before it. */
  function Insert<T>(s: seq<T>, x: T, leq: (T, T) -> bool): seq<T> {
    if s == [] || leq(s[|s| - 1], x) then s + [x]
    else Insert(s[..|s| - 1], x, leq) + [s[|s| - 1]]
  }

  function Sort<T>(s: seq<T>, leq: (T, T) -> bool): seq<T> {
    if s == [] then [] else Insert(Sort(s[..|s| - 1], leq), s[|s| - 1], leq)
  }

  /** The elements that pass the test, in their order. */
  function Filter<T>(s: seq<T>, p: T -> bool): seq<T> {
    if s == [] then []
    else Filter(s[..|s| - 1], p) + if p(s[|s| - 1]) then [s[|s| - 1]] else []
  }

  lemma {:induction false} InsertKeepsElements<T>(s: seq<T>, x: T, leq: (T, T) -> bool)
    ensures multiset(Insert(s, x, leq)) == multiset(s) + multiset{x}
  {
    if s != [] && !leq(s[|s| - 1], x) {
      InsertKeepsElements(s[..|s| - 1], x, leq);
      assert s == s[..|s| - 1] + [s[|s| - 1]];
    }
  }

  lemma {:induction false} InsertKeepsOrder<T(!new)>(s: seq<T>, x: T, leq: (T, T) -> bool)
    requires TotalPreorder(leq) && SortedBy(s, leq)
    ensures SortedBy(Insert(s, x, leq), leq)
  {
    if s == [] || leq(s[|s| - 1], x) {
      assert forall i :: 0 <= i < |s| ==> leq(s[i], s[|s| - 1]) || i == |s| - 1;
    } else {
      var front, last := s[..|s| - 1], s[|s| - 1];
      InsertKeepsOrder(front, x, leq);
      InsertKeepsElements(front, x, leq);
      var t := Insert(front, x, leq);
      forall i | 0 <= i < |t| ensures leq(t[i], last) {
        assert t[i] in multiset(t);
        assert t[i] in front || t[i] == x;
      }
    }
  }

  /** A sort keeps every element as often as it occurs and puts them in order. */
  lemma {:induction false} SortSorts<T(!new)>(s: seq<T>, leq: (T, T) -> bool)
    requires TotalPreorder(leq)
    ensures SortedBy(Sort(s, leq), leq)
    ensures multiset(Sort(s, leq)) == multiset(s) && |Sort(s, leq)| == |s|
  {
    hide TotalPreorder, Insert;
    if s != [] {
      SortSorts(s[..|s| - 1], leq);
      InsertKeepsOrder(Sort(s[..|s| - 1], leq), s[|s| - 1], leq);
      InsertKeepsElements(Sort(s[..|s| - 1], leq), s[|s| - 1], leq);
      assert s == s[..|s| - 1] + [s[|s| - 1]];
      assert |multiset(Sort(s, leq))| == |multiset(s)|;
    }
  }

  lemma {:induction false} FilterOfInsert<T>(s: seq<T>, x: T, leq: (T, T) -> bool, p: T -> bool)
    requires p(x) ==> forall y :: y in s && p(y) ==> leq(y, x)
    ensures Filter(Insert(s, x, leq), p) == Filter(s, p) + if p(x) then [x] else []
  {
    if s == [] || leq(s[|s| - 1], x) {
      assert (s + [x])[..|s|] == s;
    } else {
      var front, last := s[..|s| - 1], s[|s| - 1];
      FilterOfInsert(front, x, leq, p);
      var t := Insert(front, x, leq);
      assert (t + [last])[..|t|] == t;
      assert last in s;
    }
  }

  lemma {:induction false} FilterOfSort<T>(s: seq<T>, leq: (T, T) -> bool, p: T -> bool)
    requires forall x, y :: x in s && y in s && p(x) && p(y) ==> leq(x, y)
    ensures Filter(Sort(s, leq), p) == Filter(s, p)
    ensures forall y :: y in Sort(s, leq) ==> y in s
  {
    if s != [] {
      var front, last := s[..|s| - 1], s[|s| - 1];
      FilterOfSort(front, leq, p);
      FilterOfInsert(Sort(front, leq), last, leq, p);
      InsertKeepsElements(Sort(front, leq), last, leq);
      forall y | y in Sort(s, leq) ensures y in s {
        assert y in multiset(Sort(s, leq));
        assert y in Sort(front, leq) || y == last;
      }
    }
  }

  /** The sort is stable: elements that compare equal keep the order they came in. */
  lemma {:induction false} SortIsStable<T(!new)>(s: seq<T>, leq: (T, T) -> bool, e: T)
    requires TotalPreorder(leq)
    ensures Filter(Sort(s, leq), x => leq(x, e) && leq(e, x)) == Filter(s, x => leq(x, e) && leq(e, x))
  {
    FilterOfSort(s, leq, x => leq(x, e) && leq(e, x));
  }

  // ------------------------------------------------------------ places

  function InsertAt<T>(s: seq<T>, x: T, leq: (T, T) -> bool): nat {
    if s == [] || leq(s[|s| - 1], x) then |s| else InsertAt(s[..|s| - 1], x, leq)
  }

  /** The place in the sorted sequence that the element at index `i` goes to. */
  function Place<T>(s: seq<T>, i: nat, leq: (T, T) -> bool): nat
    requires i < |s|
  {
    var last := |s| - 1;
    var at := InsertAt(Sort(s[..last], leq), s[last], leq);
    if i == last then at
    else if Place(s[..last], i, leq) < at then Place(s[..last], i, leq)
    else Place(s[..last], i, leq) + 1
  }

  lemma {:induction false} InsertedAt<T>(s: seq<T>, x: T, leq: (T, T) -> bool)
    ensures var at := InsertAt(s, x, leq);
            && at <= |s| && Insert(s, x, leq) == s[..at] + [x] + s[at..]
            && (at > 0 ==> leq(s[at - 1], x))
            && forall k :: at <= k < |s| ==> !leq(s[k], x)
  {
    if s != [] && !leq(s[|s| - 1], x) {
      InsertedAt(s[..|s| - 1], x, leq);
      var at := InsertAt(s, x, leq);
      assert s[..|s| - 1][at..] + [s[|s| - 1]] == s[at..];
      assert s[..|s| - 1][..at] == s[..at];
    }
  }

  /** The last step of a sort puts the last element in its place. */
  lemma {:induction false} SortStep<T>(s: seq<T>, leq: (T, T) -> bool)
    requires s != []
    ensures var front, x := Sort(s[..|s| - 1], leq), s[|s| - 1];
            var at := InsertAt(front, x, leq);
            && at <= |front| == |s| - 1 && |Sort(s, leq)| == |s| && Sort(s, leq)[at] == x
            && (forall k :: 0 <= k < at ==> Sort(s, leq)[k] == front[k])
            && forall k :: at <= k < |front| ==> Sort(s, leq)[k + 1] == front[k]
  {
    hide Insert, InsertAt;
    if |s| > 1 {
      SortStep(s[..|s| - 1], leq);
    }
    InsertedAt(Sort(s[..|s| - 1], leq), s[|s| - 1], leq);
  }

  /** An element is found at its place. */
  lemma {:induction false} SortPlaces<T>(s: seq<T>, leq: (T, T) -> bool, i: nat)
    requires i < |s|
    ensures Place(s, i, leq) < |Sort(s, leq)| == |s| && Sort(s, leq)[Place(s, i, leq)] == s[i]
  {
    hide Sort, Insert, InsertAt;
    SortStep(s, leq);
    if i < |s| - 1 {
      SortPlaces(s[..|s| - 1], leq, i);
    }
  }

  /** What of two different indexes comes first: the smaller element, and of two that compare
      equal the one with the smaller index. */
  lemma {:induction false} PlacesFollowTheOrder<T(!new)>(s: seq<T>, leq: (T, T) -> bool, i: nat, j: nat)
    requires TotalPreorder(leq) && i < |s| && j < |s| && i != j
    ensures Place(s, i, leq) < Place(s, j, leq) <==> leq(s[i], s[j]) && (i < j || !leq(s[j], s[i]))
  {
    hide Sort, Insert;
    var last := |s| - 1;
    var front := s[..last];
    if i == last {
      LastPlace(s, leq, j);
    } else if j == last {
      LastPlace(s, leq, i);
    } else {
      PlacesFollowTheOrder(front, leq, i, j);
      PlacesFollowTheOrder(front, leq, j, i);
    }
  }

  lemma {:induction false} LastPlace<T(!new)>(s: seq<T>, leq: (T, T) -> bool, i: nat)
    requires TotalPreorder(leq) && i < |s| - 1
    ensures Place(s, i, leq) != Place(s, |s| - 1, leq)
    ensures Place(s, i, leq) < Place(s, |s| - 1, leq) <==> leq(s[i], s[|s| - 1])
  {
    hide Sort, Insert;
    var last := |s| - 1;
    var front, x := Sort(s[..last], leq), s[last];
    var at := InsertAt(front, x, leq);
    InsertedAt(front, x, leq);
    SortSorts(s[..last], leq);
    SortPlaces(s[..last], leq, i);
    var p := Place(s[..last], i, leq);
    assert front[p] == s[i];
    if p < at {
      assert leq(front[p], front[at - 1]);
    }
  }

  // ------------------------------------------------------------ counting

  function Count<T>(s: seq<T>, p: T -> bool): nat {
    if s == [] then 0 else Count(s[..|s| - 1], p) + if p(s[|s| - 1]) then 1 else 0
  }

  lemma {:induction false} CountOfInsert<T>(s: seq<T>, x: T, leq: (T, T) -> bool, p: T -> bool)
    ensures Count(Insert(s, x, leq), p) == Count(s, p) + if p(x) then 1 else 0
  {
    if s == [] || leq(s[|s| - 1], x) {
      assert (s + [x])[..|s|] == s;
    } else {
      var t := Insert(s[..|s| - 1], x, leq);
      CountOfInsert(s[..|s| - 1], x, leq, p);
      assert (t + [s[|s| - 1]])[..|t|] == t;
    }
  }

  lemma {:induction false} CountOfSort<T>(s: seq<T>, leq: (T, T) -> bool, p: T -> bool)
    ensures Count(Sort(s, leq), p) == Count(s, p)
  {
    if s != [] {
      CountOfSort(s[..|s| - 1], leq, p);
      CountOfInsert(Sort(s[..|s| - 1], leq), s[|s| - 1], leq, p);
    }
  }

  /** What the first `n` elements, or the elements from `n` on, say about a count. */
  lemma {:induction false} CountBounds<T>(s: seq<T>, p: T -> bool, n: nat)
    requires n <= |s|
    ensures (forall k :: 0 <= k < n ==> p(s[k])) ==> n <= Count(s, p)
    ensures (forall k :: n <= k < |s| ==> !p(s[k])) ==> Count(s, p) <= n
    ensures Count(s, p) <= |s|
  {
    if s != [] {
      CountBounds(s[..|s| - 1], p, if n < |s| then n else n - 1);
    }
  }

  lemma {:induction false} CountMonotone<T>(s: seq<T>, p: T -> bool, q: T -> bool)
    requires forall x :: x in s && p(x) ==> q(x)
    ensures Count(s, p) <= Count(s, q)
  {
    if s != [] {
      CountMonotone(s[..|s| - 1], p, q);
    }
  }

  // ------------------------------------------------------------ extremes

  function Maximum(values: seq<real>): (m: real)
    requires values != []
    ensures m in values && forall k :: 0 <= k < |values| ==> values[k] <= m
  {
    var last := |values| - 1;
    if last == 0 then values[0]
    else
      var rest := Maximum(values[..last]);
      assert rest in values[..last];
      if rest < values[last] then values[last] else rest
  }

  function Minimum(values: seq<real>): (m: real)
    requires values != []
    ensures m in values && forall k :: 0 <= k < |values| ==> m <= values[k]
  {
    var last := |values| - 1;
    if last == 0 then values[0]
    else
      var rest := Minimum(values[..last]);
      assert rest in values[..last];
      if values[last] < rest then values[last] else rest
  }
}
