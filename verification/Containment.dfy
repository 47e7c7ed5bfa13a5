/** Ordered containment, as scenario evaluation asks it of action lists
    (backoffice_scenarios.py). */
module Containment {
  import opened Basics

  /** The elements of `expected` stand in `actual` at the positions `at`, left to right. */
  predicate Embeds(actual: seq<string>, expected: seq<string>, at: seq<nat>) {
    && |at| == |expected|
    && (forall k :: 0 <= k < |at| ==> at[k] < |actual| && actual[at[k]] == expected[k])
    && (forall j, k :: 0 <= j < k < |at| ==> at[j] < at[k])
  }

  ghost predicate Subsequence(actual: seq<string>, expected: seq<string>) {
    exists at :: Embeds(actual, expected, at)
  }

  /** `actual.index(item, start)` */
  method IndexFrom(actual: seq<string>, item: string, start: nat) returns (r: Option<nat>)
    ensures r.Some? ==> start <= r.value < |actual| && actual[r.value] == item
    ensures r.Some? ==> forall j :: start <= j < r.value ==> actual[j] != item
    ensures r.None? ==> forall j :: start <= j < |actual| ==> actual[j] != item
  {
    var n := start;
    while n < |actual|
      invariant forall j :: start <= j < n && j < |actual| ==> actual[j] != item
    {
      if actual[n] == item {
        return Some(n);
      }
      n := n + 1;
    }
    return None;
  }

  /** The `n`-th of strictly increasing positions is at least `n`. */
  lemma {:induction false} PositionsGrow(actual: seq<string>, expected: seq<string>, at: seq<nat>, n: nat)
    requires Embeds(actual, expected, at) && n < |at|
    ensures n <= at[n]
  {
    if n > 0 {
      PositionsGrow(actual, expected, at, n - 1);
    }
  }

  /** Where the scan stops is never to the right of where another embedding has got to. */
  ghost predicate Leftmost(actual: seq<string>, expected: seq<string>, start: nat) {
    forall at :: Embeds(actual, expected, at) && |at| > 0 ==> start <= at[|at| - 1] + 1
  }

  /** The exchange step: any embedding of one more element has that element at or after the
      scan's position, so taking the first occurrence there is no worse. */
  lemma {:induction false} ExchangeStep(actual: seq<string>, expected: seq<string>, n: nat, start: nat, at: seq<nat>)
    requires n < |expected| && Leftmost(actual, expected[..n], start) && (n == 0 ==> start == 0)
    requires n < |at| <= |expected| && Embeds(actual, expected[..|at|], at)
    ensures start <= at[n] && actual[at[n]] == expected[n]
  {
    assert Embeds(actual, expected[..n], at[..n]);
  }

  /** If the next element is not there from the scan's position on, nothing embeds. */
  lemma {:induction false} NoneWithoutNext(actual: seq<string>, expected: seq<string>, n: nat, start: nat)
    requires n < |expected| && Leftmost(actual, expected[..n], start) && (n == 0 ==> start == 0)
    requires forall j :: start <= j < |actual| ==> actual[j] != expected[n]
    ensures !Subsequence(actual, expected)
  {
    forall at ensures !Embeds(actual, expected, at) {
      if Embeds(actual, expected, at) {
        assert expected[..|at|] == expected;
        ExchangeStep(actual, expected, n, start, at);
      }
    }
  }

  /** Taking the first occurrence of the next element keeps the scan leftmost. */
  lemma {:induction false} FirstStaysLeftmost(actual: seq<string>, expected: seq<string>, n: nat, start: nat,
                                              index: nat)
    requires n < |expected| && Leftmost(actual, expected[..n], start) && (n == 0 ==> start == 0)
    requires forall j :: start <= j < index && j < |actual| ==> actual[j] != expected[n]
    ensures Leftmost(actual, expected[..n + 1], index + 1)
  {
    forall at | Embeds(actual, expected[..n + 1], at) ensures index + 1 <= at[|at| - 1] + 1 {
      ExchangeStep(actual, expected, n, start, at);
    }
  }

  lemma {:induction false} TooShort(actual: seq<string>, expected: seq<string>)
    requires |actual| < |expected|
    ensures !Subsequence(actual, expected)
  {
    forall at ensures !Embeds(actual, expected, at) {
      if Embeds(actual, expected, at) {
        PositionsGrow(actual, expected, at, |expected| - 1);
      }
    }
  }

  lemma {:induction false} NothingTaken(actual: seq<string>, expected: seq<string>)
    ensures Embeds(actual, expected[..0], []) && Leftmost(actual, expected[..0], 0)
  {
  }

  lemma {:induction false} TakeNext(actual: seq<string>, expected: seq<string>, n: nat, taken: seq<nat>, index: nat)
    requires n < |expected| && Embeds(actual, expected[..n], taken)
    requires index < |actual| && actual[index] == expected[n] && (n == 0 || taken[n - 1] < index)
    ensures Embeds(actual, expected[..n + 1], taken + [index])
  {
  }

  /** The greedy leftmost scan is complete: it answers true exactly when the expected
      elements occur in order, repeats included. */
  method ContainsInOrder(actual: seq<string>, expected: seq<string>) returns (r: bool)
    ensures r <==> Subsequence(actual, expected)
  {
    hide Embeds, Leftmost;
    if |actual| < |expected| {
      TooShort(actual, expected);
      return false;
    }
    var start := 0;
    ghost var taken: seq<nat> := [];
    var n := 0;
    NothingTaken(actual, expected);
    while n < |expected|
      invariant 0 <= n <= |expected| && |taken| == n
      invariant Embeds(actual, expected[..n], taken)
      invariant start == if n == 0 then 0 else taken[n - 1] + 1
      invariant Leftmost(actual, expected[..n], start)
    {
      var index := IndexFrom(actual, expected[n], start);
      if index.None? {
        NoneWithoutNext(actual, expected, n, start);
        return false;
      }
      TakeNext(actual, expected, n, taken, index.value);
      FirstStaysLeftmost(actual, expected, n, start, index.value);
      start := index.value + 1;
      taken := taken + [index.value];
      n := n + 1;
    }
    assert expected[..n] == expected;
    return true;
  }

  /** Containment composes: what is contained in a contained list is contained. */
  lemma {:induction false} ContainmentIsTransitive(a: seq<string>, b: seq<string>, c: seq<string>)
    requires Subsequence(a, b) && Subsequence(b, c)
    ensures Subsequence(a, c)
  {
    var outer :| Embeds(a, b, outer);
    var inner :| Embeds(b, c, inner);
    var at: seq<nat> := seq(|inner|, k requires 0 <= k < |inner| => outer[inner[k]]);
    assert Embeds(a, c, at);
  }
}
