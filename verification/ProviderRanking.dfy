/** How benchmarked providers are scored, ordered and recommended (benchmark/report.py). */
module ProviderRanking {
  import opened Basics
  import opened Rounding
  import opened Sorting

  /** What one provider's summary says. Rates lie between 0 and 1; a cost may be unknown. */
  datatype Provider = Provider(name: string, success: real, accuracy: real, errorRate: real, cost: Option<real>,
                               latency: real)

  datatype Scored = Scored(provider: Provider, score: real, costScore: real, latencyScore: real, reliability: real)

  const SCALE := 10_000

  // ------------------------------------------------------------ scores

  function InverseNormalized(value: real, values: seq<real>): real {
    if values == [] then 1.0
    else if Maximum(values) == Minimum(values) then 1.0
    else 1.0 - (value - Minimum(values)) / (Maximum(values) - Minimum(values))
  }

  function InverseNormalizedOptional(value: Option<real>, values: seq<real>): real {
    if value.None? then 0.0 else InverseNormalized(value.value, values)
  }

  /** The costs that are known. */
  function Costs(reports: seq<Provider>): (r: seq<real>)
    ensures forall n :: 0 <= n < |reports| && reports[n].cost.Some? ==> reports[n].cost.value in r
  {
    if reports == [] then []
    else
      var last := reports[|reports| - 1];
      Costs(reports[..|reports| - 1]) + if last.cost.Some? then [last.cost.value] else []
  }

  lemma {:induction false} OnlyKnownCosts(reports: seq<Provider>, c: real)
    requires c in Costs(reports)
    ensures exists n :: 0 <= n < |reports| && reports[n].cost == Some(c)
  {
    var last := |reports| - 1;
    if reports[last].cost != Some(c) {
      OnlyKnownCosts(reports[..last], c);
      var n :| 0 <= n < last && reports[..last][n].cost == Some(c);
      assert reports[n].cost == Some(c);
    }
  }

  function Latencies(reports: seq<Provider>): (r: seq<real>)
    ensures |r| == |reports| && forall n :: 0 <= n < |reports| ==> r[n] == reports[n].latency
  {
    seq(|reports|, n requires 0 <= n < |reports| => reports[n].latency)
  }

  function Weighted(p: Provider, costScore: real, latencyScore: real): real {
    0.40 * p.success + 0.30 * p.accuracy + 0.15 * (1.0 - p.errorRate) + 0.10 * costScore + 0.05 * latencyScore
  }

  function ExactScore(p: Provider, costs: seq<real>, latencies: seq<real>): real {
    Weighted(p, InverseNormalizedOptional(p.cost, costs), InverseNormalized(p.latency, latencies))
  }

  function ScoreOf(p: Provider, costs: seq<real>, latencies: seq<real>): Scored {
    Scored(p, RoundTo(ExactScore(p, costs, latencies), SCALE), RoundTo(InverseNormalizedOptional(p.cost, costs), SCALE),
           RoundTo(InverseNormalized(p.latency, latencies), SCALE), RoundTo(1.0 - p.errorRate, SCALE))
  }

  function ScoreAll(reports: seq<Provider>): (r: seq<Scored>)
    ensures |r| == |reports|
    ensures forall n :: 0 <= n < |r| ==> r[n] == ScoreOf(reports[n], Costs(reports), Latencies(reports))
  {
    seq(|reports|, n requires 0 <= n < |reports| => ScoreOf(reports[n], Costs(reports), Latencies(reports)))
  }

  /** A cheaper or faster value never scores lower. */
  lemma {:induction false} NormalizedFalls(v: real, w: real, values: seq<real>)
    requires v <= w
    ensures InverseNormalized(v, values) >= InverseNormalized(w, values)
  {
    if values != [] && Maximum(values) != Minimum(values) {
      var low, width := Minimum(values), Maximum(values) - Minimum(values);
      QuotientsKeepOrder(v - low, w - low, width);
    }
  }

  lemma {:induction false} NormalizedInUnit(v: real, values: seq<real>)
    requires v in values
    ensures 0.0 <= InverseNormalized(v, values) <= 1.0
  {
    var k :| 0 <= k < |values| && values[k] == v;
    var low, width := Minimum(values), Maximum(values) - Minimum(values);
    if width != 0.0 {
      PartOfWhole(v - low, width);
    }
  }

  lemma {:induction false} RoundedUnit(x: real)
    requires 0.0 <= x <= 1.0
    ensures 0.0 <= RoundTo(x, SCALE) <= 1.0
  {
    RoundingIsMonotone(0.0, x, SCALE);
    RoundingIsMonotone(x, 1.0, SCALE);
    assert RoundTo(0.0, SCALE) == 0.0 && RoundTo(1.0, SCALE) == 1.0;
  }

  predicate RatesInRange(p: Provider) {
    0.0 <= p.success <= 1.0 && 0.0 <= p.accuracy <= 1.0 && 0.0 <= p.errorRate <= 1.0
  }

  /** With rates between 0 and 1, every score lies between 0 and 1. */
  lemma {:induction false} ScoresInRange(reports: seq<Provider>, n: nat)
    requires n < |reports| && RatesInRange(reports[n])
    ensures var s := ScoreAll(reports)[n];
            && 0.0 <= s.score <= 1.0 && 0.0 <= s.costScore <= 1.0 && 0.0 <= s.latencyScore <= 1.0
            && 0.0 <= s.reliability <= 1.0
  {
    hide InverseNormalized, RoundTo;
    var p := reports[n];
    assert Latencies(reports)[n] in Latencies(reports);
    NormalizedInUnit(p.latency, Latencies(reports));
    if p.cost.Some? {
      NormalizedInUnit(p.cost.value, Costs(reports));
    }
    RoundedUnit(ExactScore(p, Costs(reports), Latencies(reports)));
    RoundedUnit(InverseNormalizedOptional(p.cost, Costs(reports)));
    RoundedUnit(InverseNormalized(p.latency, Latencies(reports)));
    RoundedUnit(1.0 - p.errorRate);
  }

  // ------------------------------------------------------------ orders

  /** An unknown cost compares as infinitely high. */
  predicate CostAtMost(a: Option<real>, b: Option<real>) {
    b.None? || (a.Some? && a.value <= b.value)
  }

  /** The order of texts, character by character. */
  predicate NameAtMost(a: string, b: string) {
    a == [] || (b != [] && (a[0] < b[0] || (a[0] == b[0] && NameAtMost(a[1..], b[1..]))))
  }

  lemma {:induction false} NamesAreOrdered(a: string, b: string)
    ensures NameAtMost(a, b) || NameAtMost(b, a)
    ensures NameAtMost(a, b) && NameAtMost(b, a) ==> a == b
  {
    if a != [] && b != [] && a[0] == b[0] {
      NamesAreOrdered(a[1..], b[1..]);
    }
  }

  lemma {:induction false} NamesAreTransitive(a: string, b: string, c: string)
    requires NameAtMost(a, b) && NameAtMost(b, c)
    ensures NameAtMost(a, c)
  {
    if a != [] && a[0] == b[0] && b[0] == c[0] {
      NamesAreTransitive(a[1..], b[1..], c[1..]);
    }
  }

  /** The sort key of `_score_providers`. */
  predicate ScoreOrder(a: Scored, b: Scored) {
    var p, q := a.provider, b.provider;
    if a.score != b.score then a.score > b.score
    else if p.success != q.success then p.success > q.success
    else if p.accuracy != q.accuracy then p.accuracy > q.accuracy
    else if p.cost != q.cost then CostAtMost(p.cost, q.cost)
    else if p.latency != q.latency then p.latency < q.latency
    else NameAtMost(p.name, q.name)
  }

  lemma {:induction false} ScoreOrderIsAnOrder()
    ensures TotalPreorder(ScoreOrder)
  {
    hide NameAtMost;
    forall a: Scored, b: Scored ensures ScoreOrder(a, b) || ScoreOrder(b, a) {
      NamesAreOrdered(a.provider.name, b.provider.name);
    }
    forall a: Scored, b: Scored, c: Scored | ScoreOrder(a, b) && ScoreOrder(b, c) ensures ScoreOrder(a, c) {
      if NameAtMost(a.provider.name, b.provider.name) && NameAtMost(b.provider.name, c.provider.name) {
        NamesAreTransitive(a.provider.name, b.provider.name, c.provider.name);
      }
    }
  }

  /** The sort key of `_rank_providers`. */
  predicate RankOrder(p: Provider, q: Provider) {
    if p.success != q.success then p.success > q.success
    else if p.accuracy != q.accuracy then p.accuracy > q.accuracy
    else if p.errorRate != q.errorRate then p.errorRate < q.errorRate
    else if p.cost != q.cost then CostAtMost(p.cost, q.cost)
    else p.latency <= q.latency
  }

  lemma {:induction false} RankOrderIsAnOrder()
    ensures TotalPreorder(RankOrder)
  {
  }

  // ------------------------------------------------------------ the ranking by score

  function Ranking(reports: seq<Provider>): seq<Scored> {
    Sort(ScoreAll(reports), ScoreOrder)
  }

  /** Score the reports one by one, then sort. */
  method ScoreProviders(reports: seq<Provider>) returns (scored: seq<Scored>)
    ensures scored == Ranking(reports)
  {
    hide ScoreOf, Costs, Latencies, Sort;
    var costs, latencies := Costs(reports), Latencies(reports);
    scored := [];
    for n := 0 to |reports|
      invariant |scored| == n
      invariant forall k :: 0 <= k < n ==> scored[k] == ScoreOf(reports[k], costs, latencies)
    {
      scored := scored + [ScoreOf(reports[n], costs, latencies)];
    }
    assert scored == ScoreAll(reports);
    return Sort(scored, ScoreOrder);
  }

  function ProvidersOf(scored: seq<Scored>): (r: seq<Provider>)
    ensures |r| == |scored| && forall n :: 0 <= n < |r| ==> r[n] == scored[n].provider
  {
    if scored == [] then [] else ProvidersOf(scored[..|scored| - 1]) + [scored[|scored| - 1].provider]
  }

  lemma {:induction false} ProvidersOfInsert(s: seq<Scored>, x: Scored)
    ensures multiset(ProvidersOf(Insert(s, x, ScoreOrder))) == multiset(ProvidersOf(s)) + multiset{x.provider}
  {
    if s == [] || ScoreOrder(s[|s| - 1], x) {
      assert (s + [x])[..|s|] == s;
    } else {
      var t := Insert(s[..|s| - 1], x, ScoreOrder);
      ProvidersOfInsert(s[..|s| - 1], x);
      assert (t + [s[|s| - 1]])[..|t|] == t;
    }
  }

  lemma {:induction false} ProvidersOfSort(s: seq<Scored>)
    ensures multiset(ProvidersOf(Sort(s, ScoreOrder))) == multiset(ProvidersOf(s))
  {
    if s != [] {
      ProvidersOfSort(s[..|s| - 1]);
      ProvidersOfInsert(Sort(s[..|s| - 1], ScoreOrder), s[|s| - 1]);
    }
  }

  /** The ranking lists every report once, in the order of the sort key. */
  lemma {:induction false} RankingIsSortedPermutation(reports: seq<Provider>)
    ensures |Ranking(reports)| == |reports|
    ensures multiset(Ranking(reports)) == multiset(ScoreAll(reports))
    ensures multiset(ProvidersOf(Ranking(reports))) == multiset(reports)
    ensures SortedBy(Ranking(reports), ScoreOrder)
  {
    ScoreOrderIsAnOrder();
    SortSorts(ScoreAll(reports), ScoreOrder);
    ProvidersOfSort(ScoreAll(reports));
    assert ProvidersOf(ScoreAll(reports)) == reports;
  }

  /** At least as good in every respect the report measures. */
  predicate AtLeastAsGood(p: Provider, q: Provider) {
    && p.success >= q.success && p.accuracy >= q.accuracy && p.errorRate <= q.errorRate
    && CostAtMost(p.cost, q.cost) && p.latency <= q.latency
  }

  predicate StrictlyBetter(p: Provider, q: Provider) {
    && AtLeastAsGood(p, q)
    && (p.success > q.success || p.accuracy > q.accuracy || p.cost != q.cost || p.latency < q.latency)
  }

  /** Dominance: a provider that is at least as good in every respect never scores lower. */
  lemma {:induction false} DominatingScoreIsNotLower(reports: seq<Provider>, i: nat, j: nat)
    requires i < |reports| && j < |reports| && AtLeastAsGood(reports[i], reports[j])
    ensures ScoreAll(reports)[i].score >= ScoreAll(reports)[j].score
  {
    hide InverseNormalized, RoundTo;
    var p, q, costs, latencies := reports[i], reports[j], Costs(reports), Latencies(reports);
    NormalizedFalls(p.latency, q.latency, latencies);
    if q.cost.Some? {
      NormalizedFalls(p.cost.value, q.cost.value, costs);
    } else if p.cost.Some? {
      NormalizedInUnit(p.cost.value, costs);
    }
    RoundingIsMonotone(ExactScore(q, costs, latencies), ExactScore(p, costs, latencies), SCALE);
  }

  lemma {:induction false} BetterComesFirst(a: Scored, b: Scored)
    requires a.score >= b.score && StrictlyBetter(a.provider, b.provider)
    ensures !ScoreOrder(b, a)
  {
    hide NameAtMost;
  }

  /** In a sorted list, what may not follow comes earlier. */
  lemma {:induction false} Earlier(ranking: seq<Scored>, m: nat, n: nat)
    requires SortedBy(ranking, ScoreOrder) && m < |ranking| && n < |ranking| && !ScoreOrder(ranking[n], ranking[m])
    ensures m < n
  {
    hide NameAtMost;
    NamesAreOrdered(ranking[m].provider.name, ranking[m].provider.name);
  }

  /** ... and one that is better in success, accuracy, cost or latency comes earlier. */
  lemma {:induction false} DominatingProviderComesFirst(reports: seq<Provider>, i: nat, j: nat, m: nat, n: nat)
    requires i < |reports| && j < |reports| && StrictlyBetter(reports[i], reports[j])
    requires m < |Ranking(reports)| && Ranking(reports)[m] == ScoreAll(reports)[i]
    requires n < |Ranking(reports)| && Ranking(reports)[n] == ScoreAll(reports)[j]
    ensures m < n
  {
    hide ScoreAll, Ranking, ScoreOrder, SortedBy;
    RankingIsSortedPermutation(reports);
    DominatingScoreIsNotLower(reports, i, j);
    BetterComesFirst(ScoreAll(reports)[i], ScoreAll(reports)[j]);
    Earlier(Ranking(reports), m, n);
  }

  /** A lower error rate alone does not have that effect: two scores that round alike are
      ordered by name. */
  lemma {:induction false} ErrorRateAloneCanLose()
    ensures var better := Provider("b", 1.0, 1.0, 0.0, None, 10.0);
            var worse := Provider("a", 1.0, 1.0, 0.0001, None, 10.0);
            && AtLeastAsGood(better, worse) && better.errorRate < worse.errorRate
            && ProvidersOf(Ranking([better, worse])) == [worse, better]
  {
    var better := Provider("b", 1.0, 1.0, 0.0, None, 10.0);
    var worse := Provider("a", 1.0, 1.0, 0.0001, None, 10.0);
    var reports := [better, worse];
    var scored := ScoreAll(reports);
    var latencies := Latencies(reports);
    assert latencies == [10.0, 10.0];
    assert Maximum(latencies) in latencies && Minimum(latencies) in latencies;
    assert ExactScore(better, Costs(reports), latencies) == 0.9;
    assert ExactScore(worse, Costs(reports), latencies) == 0.899985;
    assert RoundTo(0.9, SCALE) == 0.9 && RoundTo(0.899985, SCALE) == 0.9;
    assert scored[0].score == scored[1].score;
    assert !NameAtMost("b", "a") && NameAtMost("a", "b");
    assert !ScoreOrder(scored[0], scored[1]);
    assert scored[..1] == [scored[0]] && scored[..0] == [];
    assert Sort(scored[..1], ScoreOrder) == [scored[0]];
    assert Insert([scored[0]], scored[1], ScoreOrder) == [scored[1], scored[0]];
  }

  /** Two reports that differ in nothing but their names and their error rates. */
  predicate AlikeButErrorRate(p: Provider, q: Provider) {
    p.(errorRate := q.errorRate, name := q.name) == q
  }

  /** Such reports go by score, and by name if that ties. */
  lemma {:induction false} TiedOrder(a: Scored, b: Scored)
    requires AlikeButErrorRate(a.provider, b.provider)
    ensures ScoreOrder(a, b) <==>
              a.score > b.score || (a.score == b.score && NameAtMost(a.provider.name, b.provider.name))
  {
    hide NameAtMost;
  }

  /** The rounded score of a report among the reports it is compared with. */
  function RoundedScore(reports: seq<Provider>, p: Provider): real {
    RoundTo(ExactScore(p, Costs(reports), Latencies(reports)), SCALE)
  }

  /** The place of a report in the ranking. */
  function RankingPlace(reports: seq<Provider>, i: nat): nat
    requires i < |reports|
  {
    Place(ScoreAll(reports), i, ScoreOrder)
  }

  /** When a lower error rate decides between reports that are otherwise equal: if and only
      if the weighted sums of the two reports round differently, or its name sorts first, or
      the names are the same and it was listed first. */
  lemma {:induction false} WhenErrorRateDecides(reports: seq<Provider>, i: nat, j: nat)
    requires i < |reports| && j < |reports| && reports[i].errorRate < reports[j].errorRate
    requires AlikeButErrorRate(reports[i], reports[j])
    ensures var m, n := RankingPlace(reports, i), RankingPlace(reports, j);
            && m < |Ranking(reports)| && Ranking(reports)[m] == ScoreAll(reports)[i]
            && n < |Ranking(reports)| && Ranking(reports)[n] == ScoreAll(reports)[j]
            && (m < n <==> || RoundedScore(reports, reports[i]) != RoundedScore(reports, reports[j])
                           || (if reports[i].name == reports[j].name then i < j
                               else NameAtMost(reports[i].name, reports[j].name)))
  {
    hide Place, Sort, ScoreOrder, NameAtMost, RoundTo, ExactScore, TotalPreorder;
    var scored := ScoreAll(reports);
    ScoreOrderIsAnOrder();
    SortPlaces(scored, ScoreOrder, i);
    SortPlaces(scored, ScoreOrder, j);
    PlacesFollowTheOrder(scored, ScoreOrder, i, j);
    DominatingScoreIsNotLower(reports, i, j);
    TiedOrder(scored[i], scored[j]);
    TiedOrder(scored[j], scored[i]);
    NamesAreOrdered(reports[i].name, reports[j].name);
  }

  /** A gap of more than 1/1500 between the error rates always decides, whatever the names. */
  lemma {:induction false} ErrorRateGapDecides(reports: seq<Provider>, i: nat, j: nat, m: nat, n: nat)
    requires i < |reports| && j < |reports| && AlikeButErrorRate(reports[i], reports[j])
    requires 1500.0 * (reports[j].errorRate - reports[i].errorRate) > 1.0
    requires m < |Ranking(reports)| && Ranking(reports)[m] == ScoreAll(reports)[i]
    requires n < |Ranking(reports)| && Ranking(reports)[n] == ScoreAll(reports)[j]
    ensures RoundedScore(reports, reports[i]) > RoundedScore(reports, reports[j])
    ensures m < n
  {
    hide Ranking, ScoreOrder, SortedBy, RoundTo, InverseNormalized;
    RankingIsSortedPermutation(reports);
    var x := ExactScore(reports[i], Costs(reports), Latencies(reports));
    var y := ExactScore(reports[j], Costs(reports), Latencies(reports));
    GapSurvivesRounding(x, y);
    HigherScoreComesFirst(ScoreAll(reports)[i], ScoreAll(reports)[j]);
    Earlier(Ranking(reports), m, n);
  }

  lemma {:induction false} GapSurvivesRounding(x: real, y: real)
    requires (x - y) * 10_000.0 > 1.0
    ensures RoundTo(x, SCALE) > RoundTo(y, SCALE)
  {
    assert RoundHalfEven(x * 10_000.0) > RoundHalfEven(y * 10_000.0);
  }

  lemma {:induction false} HigherScoreComesFirst(a: Scored, b: Scored)
    requires a.score > b.score
    ensures !ScoreOrder(b, a)
  {
  }

  // ------------------------------------------------------------ trade-offs

  /** A lead of more than 1/10000 in the weighted sum decides the score and the place. */
  lemma {:induction false} LeadDecides(reports: seq<Provider>, i: nat, j: nat)
    requires i < |reports| && j < |reports|
    requires 10_000.0 * (ExactScore(reports[i], Costs(reports), Latencies(reports))
                         - ExactScore(reports[j], Costs(reports), Latencies(reports))) > 1.0
    ensures ScoreAll(reports)[i].score > ScoreAll(reports)[j].score
    ensures RankingPlace(reports, i) < RankingPlace(reports, j)
  {
    hide Place, ScoreOrder, RoundTo, ExactScore, TotalPreorder;
    var scored := ScoreAll(reports);
    GapSurvivesRounding(ExactScore(reports[i], Costs(reports), Latencies(reports)),
                        ExactScore(reports[j], Costs(reports), Latencies(reports)));
    ScoreOrderIsAnOrder();
    HigherScoreComesFirst(scored[i], scored[j]);
    HigherScoreMayComeFirst(scored[i], scored[j]);
    PlacesFollowTheOrder(scored, ScoreOrder, i, j);
  }

  lemma {:induction false} HigherScoreMayComeFirst(a: Scored, b: Scored)
    requires a.score > b.score
    ensures ScoreOrder(a, b)
  {
  }

  /** Success against accuracy: between reports that differ in nothing else, a lead in success
      counts four for every three of the lead in accuracy. */
  lemma {:induction false} SuccessAgainstAccuracy(reports: seq<Provider>, i: nat, j: nat)
    requires i < |reports| && j < |reports|
    requires reports[i].(success := reports[j].success, accuracy := reports[j].accuracy, name := reports[j].name)
              == reports[j]
    ensures var lead, deficit := reports[i].success - reports[j].success, reports[j].accuracy - reports[i].accuracy;
            && (4.0 * lead - 3.0 * deficit > 0.001 ==> RankingPlace(reports, i) < RankingPlace(reports, j))
            && (3.0 * deficit - 4.0 * lead > 0.001 ==> RankingPlace(reports, j) < RankingPlace(reports, i))
  {
    hide RankingPlace, InverseNormalized, Maximum, Minimum, Costs, Latencies, ScoreAll;
    var lead, deficit := reports[i].success - reports[j].success, reports[j].accuracy - reports[i].accuracy;
    if 4.0 * lead - 3.0 * deficit > 0.001 {
      LeadDecides(reports, i, j);
    } else if 3.0 * deficit - 4.0 * lead > 0.001 {
      LeadDecides(reports, j, i);
    }
  }

  /** Accuracy against reliability: a lead in accuracy counts twice a lower error rate. */
  lemma {:induction false} AccuracyAgainstReliability(reports: seq<Provider>, i: nat, j: nat)
    requires i < |reports| && j < |reports|
    requires reports[i].(accuracy := reports[j].accuracy, errorRate := reports[j].errorRate, name := reports[j].name)
              == reports[j]
    ensures var lead, excess := reports[i].accuracy - reports[j].accuracy, reports[i].errorRate - reports[j].errorRate;
            && (1500.0 * (2.0 * lead - excess) > 1.0 ==> RankingPlace(reports, i) < RankingPlace(reports, j))
            && (1500.0 * (excess - 2.0 * lead) > 1.0 ==> RankingPlace(reports, j) < RankingPlace(reports, i))
  {
    hide RankingPlace, InverseNormalized, Maximum, Minimum, Costs, Latencies, ScoreAll;
    var lead, excess := reports[i].accuracy - reports[j].accuracy, reports[i].errorRate - reports[j].errorRate;
    if 1500.0 * (2.0 * lead - excess) > 1.0 {
      LeadDecides(reports, i, j);
    } else if 1500.0 * (excess - 2.0 * lead) > 1.0 {
      LeadDecides(reports, j, i);
    }
  }

  /** How far a value lies above another, as a part of the spread of all values. */
  function PartOfSpread(difference: real, values: seq<real>): real
    requires values != [] && Maximum(values) != Minimum(values)
  {
    difference / (Maximum(values) - Minimum(values))
  }

  lemma {:induction false} NormalizedGap(v: real, w: real, values: seq<real>)
    requires values != [] && Maximum(values) != Minimum(values)
    ensures InverseNormalized(v, values) - InverseNormalized(w, values) == PartOfSpread(w - v, values)
  {
    var low, width := Minimum(values), Maximum(values) - Minimum(values);
    QuotientsSubtract(w - low, v - low, width);
  }

  lemma {:induction false} QuotientsSubtract(x: real, y: real, width: real)
    requires width != 0.0
    ensures x / width - y / width == (x - y) / width
  {
  }

  /** Reliability against cost: a lower error rate counts three for every two of a higher cost,
      measured against the spread of the known costs. */
  lemma {:induction false} ReliabilityAgainstCost(reports: seq<Provider>, i: nat, j: nat)
    requires i < |reports| && j < |reports| && reports[i].cost.Some? && reports[j].cost.Some?
    requires reports[i].(errorRate := reports[j].errorRate, cost := reports[j].cost, name := reports[j].name)
              == reports[j]
    requires Costs(reports) != [] && Maximum(Costs(reports)) != Minimum(Costs(reports))
    ensures var lead := reports[j].errorRate - reports[i].errorRate;
            var dearer := PartOfSpread(reports[i].cost.value - reports[j].cost.value, Costs(reports));
            && (500.0 * (3.0 * lead - 2.0 * dearer) > 1.0 ==> RankingPlace(reports, i) < RankingPlace(reports, j))
            && (500.0 * (2.0 * dearer - 3.0 * lead) > 1.0 ==> RankingPlace(reports, j) < RankingPlace(reports, i))
  {
    hide RankingPlace, InverseNormalized, PartOfSpread, Maximum, Minimum, Costs, Latencies, ScoreAll;
    NormalizedGap(reports[j].cost.value, reports[i].cost.value, Costs(reports));
    var lead := reports[j].errorRate - reports[i].errorRate;
    var dearer := PartOfSpread(reports[i].cost.value - reports[j].cost.value, Costs(reports));
    if 500.0 * (3.0 * lead - 2.0 * dearer) > 1.0 {
      LeadDecides(reports, i, j);
    } else if 500.0 * (2.0 * dearer - 3.0 * lead) > 1.0 {
      LeadDecides(reports, j, i);
    }
  }

  /** Cost against latency: a lower cost counts twice a higher latency, each measured against
      the spread of its own values. */
  lemma {:induction false} CostAgainstLatency(reports: seq<Provider>, i: nat, j: nat)
    requires i < |reports| && j < |reports| && reports[i].cost.Some? && reports[j].cost.Some?
    requires reports[i].(cost := reports[j].cost, latency := reports[j].latency, name := reports[j].name) == reports[j]
    requires Costs(reports) != [] && Maximum(Costs(reports)) != Minimum(Costs(reports))
    requires Maximum(Latencies(reports)) != Minimum(Latencies(reports))
    ensures var cheaper := PartOfSpread(reports[j].cost.value - reports[i].cost.value, Costs(reports));
            var slower := PartOfSpread(reports[i].latency - reports[j].latency, Latencies(reports));
            && (500.0 * (2.0 * cheaper - slower) > 1.0 ==> RankingPlace(reports, i) < RankingPlace(reports, j))
            && (500.0 * (slower - 2.0 * cheaper) > 1.0 ==> RankingPlace(reports, j) < RankingPlace(reports, i))
  {
    hide RankingPlace, InverseNormalized, PartOfSpread, Maximum, Minimum, Costs, Latencies, ScoreAll;
    NormalizedGap(reports[i].cost.value, reports[j].cost.value, Costs(reports));
    NormalizedGap(reports[j].latency, reports[i].latency, Latencies(reports));
    var cheaper := PartOfSpread(reports[j].cost.value - reports[i].cost.value, Costs(reports));
    var slower := PartOfSpread(reports[i].latency - reports[j].latency, Latencies(reports));
    if 500.0 * (2.0 * cheaper - slower) > 1.0 {
      LeadDecides(reports, i, j);
    } else if 500.0 * (slower - 2.0 * cheaper) > 1.0 {
      LeadDecides(reports, j, i);
    }
  }

  /** The ends of each part of a score: the cheapest report, of all whose cost is known, has cost
      score 1, the dearest of several and one of unknown cost 0; the fastest has latency score 1
      and the slowest of several 0; one without errors has reliability 1. */
  lemma {:induction false} EndsOfTheParts(reports: seq<Provider>, n: nat)
    requires n < |reports|
    ensures var p, s := reports[n], ScoreAll(reports)[n];
            && (p.cost.Some? && (forall m :: 0 <= m < |reports| && reports[m].cost.Some? ==>
                                   p.cost.value <= reports[m].cost.value) ==>
                  s.costScore == 1.0)
            && (p.cost.None? ==> s.costScore == 0.0)
            && (p.cost.Some? && (forall m :: 0 <= m < |reports| && reports[m].cost.Some? ==>
                                   reports[m].cost.value <= p.cost.value)
                && (exists m :: 0 <= m < |reports| && reports[m].cost.Some? && reports[m].cost.value < p.cost.value) ==>
                  s.costScore == 0.0)
            && ((forall m :: 0 <= m < |reports| ==> p.latency <= reports[m].latency) ==> s.latencyScore == 1.0)
            && ((forall m :: 0 <= m < |reports| ==> reports[m].latency <= p.latency)
                && (exists m :: 0 <= m < |reports| && reports[m].latency < p.latency) ==>
                  s.latencyScore == 0.0)
            && (p.errorRate == 0.0 ==> s.reliability == 1.0) && (p.errorRate == 1.0 ==> s.reliability == 0.0)
  {
    hide RoundTo, InverseNormalized, ExactScore;
    RoundedEnds();
    if reports[n].cost.Some? {
      CostEnds(reports, n);
    }
    LatencyEnds(reports, n);
  }

  lemma {:induction false} CostEnds(reports: seq<Provider>, n: nat)
    requires n < |reports| && reports[n].cost.Some?
    ensures (forall m :: 0 <= m < |reports| && reports[m].cost.Some? ==>
               reports[n].cost.value <= reports[m].cost.value) ==>
              InverseNormalized(reports[n].cost.value, Costs(reports)) == 1.0
    ensures (forall m :: 0 <= m < |reports| && reports[m].cost.Some? ==>
               reports[m].cost.value <= reports[n].cost.value)
            && (exists m :: 0 <= m < |reports| && reports[m].cost.Some?
                            && reports[m].cost.value < reports[n].cost.value) ==>
              InverseNormalized(reports[n].cost.value, Costs(reports)) == 0.0
  {
    hide InverseNormalized, Costs;
    forall c | c in Costs(reports) ensures exists m :: 0 <= m < |reports| && reports[m].cost == Some(c) {
      OnlyKnownCosts(reports, c);
    }
    EndsOfNormalized(reports[n].cost.value, Costs(reports));
  }

  lemma {:induction false} LatencyEnds(reports: seq<Provider>, n: nat)
    requires n < |reports|
    ensures (forall m :: 0 <= m < |reports| ==> reports[n].latency <= reports[m].latency) ==>
              InverseNormalized(reports[n].latency, Latencies(reports)) == 1.0
    ensures (forall m :: 0 <= m < |reports| ==> reports[m].latency <= reports[n].latency)
            && (exists m :: 0 <= m < |reports| && reports[m].latency < reports[n].latency) ==>
              InverseNormalized(reports[n].latency, Latencies(reports)) == 0.0
  {
    hide InverseNormalized;
    var latencies := Latencies(reports);
    assert latencies[n] in latencies;
    if exists m :: 0 <= m < |reports| && reports[m].latency < reports[n].latency {
      var m :| 0 <= m < |reports| && reports[m].latency < reports[n].latency;
      assert latencies[m] in latencies;
    }
    EndsOfNormalized(reports[n].latency, latencies);
  }

  /** The two ends of the scale: a report that is perfect, cheapest and fastest scores 1; one
      that is worst in everything, of all reports the dearest and slowest, scores 0. An unknown
      cost counts as the dearest. */
  lemma {:induction false} EndsOfTheScale(reports: seq<Provider>, n: nat)
    requires n < |reports|
    ensures var p := reports[n];
            && (p.success == 1.0 && p.accuracy == 1.0 && p.errorRate == 0.0
                && p.cost.Some? && (forall c :: c in Costs(reports) ==> p.cost.value <= c)
                && (forall l :: l in Latencies(reports) ==> p.latency <= l) ==>
                  ScoreAll(reports)[n].score == 1.0 && ScoreAll(reports)[n].costScore == 1.0
                  && ScoreAll(reports)[n].latencyScore == 1.0 && ScoreAll(reports)[n].reliability == 1.0)
            && (p.success == 0.0 && p.accuracy == 0.0 && p.errorRate == 1.0
                && (p.cost.None? || ((forall c :: c in Costs(reports) ==> c <= p.cost.value)
                                     && (exists c :: c in Costs(reports) && c < p.cost.value)))
                && (forall l :: l in Latencies(reports) ==> l <= p.latency)
                && (exists l :: l in Latencies(reports) && l < p.latency) ==>
                  ScoreAll(reports)[n].score == 0.0 && ScoreAll(reports)[n].costScore == 0.0
                  && ScoreAll(reports)[n].latencyScore == 0.0 && ScoreAll(reports)[n].reliability == 0.0)
  {
    hide RoundTo;
    assert RoundTo(0.0, SCALE) == 0.0 && RoundTo(1.0, SCALE) == 1.0 by { RoundedEnds(); }
    var p := reports[n];
    assert Latencies(reports)[n] in Latencies(reports);
    EndsOfNormalized(p.latency, Latencies(reports));
    if p.cost.Some? {
      EndsOfNormalized(p.cost.value, Costs(reports));
    }
  }

  lemma {:induction false} RoundedEnds()
    ensures RoundTo(0.0, SCALE) == 0.0 && RoundTo(1.0, SCALE) == 1.0
  {
  }

  lemma {:induction false} LeastNormalized(v: real, values: seq<real>)
    requires v in values && forall w :: w in values ==> v <= w
    ensures InverseNormalized(v, values) == 1.0
  {
    hide PartOfSpread;
    assert v == Minimum(values);
    if Maximum(values) != Minimum(values) {
      NormalizedIs(v, values);
      PartsOfSpread(values);
    }
  }

  lemma {:induction false} GreatestNormalized(v: real, values: seq<real>)
    requires v in values && (forall w :: w in values ==> w <= v) && exists w :: w in values && w < v
    ensures InverseNormalized(v, values) == 0.0
  {
    hide InverseNormalized, PartOfSpread;
    var w :| w in values && w < v;
    assert v == Maximum(values) && Minimum(values) <= w;
    NormalizedIs(v, values);
    PartsOfSpread(values);
  }

  lemma {:induction false} NormalizedIs(v: real, values: seq<real>)
    requires values != [] && Maximum(values) != Minimum(values)
    ensures InverseNormalized(v, values) == 1.0 - PartOfSpread(v - Minimum(values), values)
  {
  }

  lemma {:induction false} PartsOfSpread(values: seq<real>)
    requires values != [] && Maximum(values) != Minimum(values)
    ensures PartOfSpread(0.0, values) == 0.0 && PartOfSpread(Maximum(values) - Minimum(values), values) == 1.0
  {
    OverItself(Maximum(values) - Minimum(values));
  }

  lemma {:induction false} EndsOfNormalized(v: real, values: seq<real>)
    requires v in values
    ensures (forall w :: w in values ==> v <= w) ==> InverseNormalized(v, values) == 1.0
    ensures (forall w :: w in values ==> w <= v) && (exists w :: w in values && w < v) ==>
              InverseNormalized(v, values) == 0.0
  {
    hide InverseNormalized;
    if forall w :: w in values ==> v <= w {
      LeastNormalized(v, values);
    }
    if (forall w :: w in values ==> w <= v) && exists w :: w in values && w < v {
      GreatestNormalized(v, values);
    }
  }

  /** Reports with equal scores go by success, then accuracy, then cost with the unknown last,
      then latency, then name, then the order they were listed in. */
  lemma {:induction false} TiesGoDownTheList(reports: seq<Provider>, i: nat, j: nat)
    requires i < |reports| && j < |reports| && i != j && ScoreAll(reports)[i].score == ScoreAll(reports)[j].score
    ensures var p, q := reports[i], reports[j];
            var ahead := RankingPlace(reports, i) < RankingPlace(reports, j);
            && (p.success > q.success ==> ahead)
            && (p.success == q.success && p.accuracy > q.accuracy ==> ahead)
            && (p.success == q.success && p.accuracy == q.accuracy ==>
                  && (p.cost != q.cost && CostAtMost(p.cost, q.cost) ==> ahead)
                  && (p.cost == q.cost && p.latency < q.latency ==> ahead)
                  && (p.cost == q.cost && p.latency == q.latency && p.name != q.name ==>
                        (ahead <==> NameAtMost(p.name, q.name)))
                  && (p.cost == q.cost && p.latency == q.latency && p.name == q.name ==> (ahead <==> i < j)))
  {
    hide Place, NameAtMost, ExactScore, RoundTo, TotalPreorder;
    ScoreOrderIsAnOrder();
    PlacesFollowTheOrder(ScoreAll(reports), ScoreOrder, i, j);
    NamesAreOrdered(reports[i].name, reports[j].name);
  }

  /** A lead in success outweighs a slightly smaller lead in accuracy: of these two the first
      scores 0.74 and is recommended, the second 0.72. */
  lemma {:induction false} SuccessOutweighsAccuracy()
    ensures var a, b := Provider("a", 0.9, 0.6, 0.0, None, 10.0), Provider("b", 0.7, 0.8, 0.0, None, 10.0);
            && ScoreAll([b, a])[1].score == 0.74 && ScoreAll([b, a])[0].score == 0.72
            && DecisionSummary([b, a]).recommended == Some("a") && DecisionSummary([b, a]).score == 0.74
  {
    var a, b := Provider("a", 0.9, 0.6, 0.0, None, 10.0), Provider("b", 0.7, 0.8, 0.0, None, 10.0);
    var reports := [b, a];
    var scored := ScoreAll(reports);
    var latencies := Latencies(reports);
    assert latencies == [10.0, 10.0];
    assert Maximum(latencies) in latencies && Minimum(latencies) in latencies;
    assert ExactScore(a, Costs(reports), latencies) == 0.74;
    assert ExactScore(b, Costs(reports), latencies) == 0.72;
    assert RoundTo(0.74, SCALE) == 0.74 && RoundTo(0.72, SCALE) == 0.72;
    assert !ScoreOrder(scored[0], scored[1]);
    assert scored[..1] == [scored[0]] && scored[..0] == [];
    assert Sort(scored[..1], ScoreOrder) == [scored[0]];
    assert Insert([scored[0]], scored[1], ScoreOrder) == [scored[1], scored[0]];
  }

  // ------------------------------------------------------------ the recommendation

  datatype Decision = Decision(recommended: Option<string>, score: real, providers: seq<Scored>)

  function DecisionSummary(reports: seq<Provider>): Decision {
    var scored := Ranking(reports);
    if scored == [] then Decision(None, 0.0, [])
    else Decision(Some(scored[0].provider.name), scored[0].score, scored)
  }

  /** Nothing is recommended if and only if there is no report, and then the score is 0; the
      summary lists the whole ranking. */
  lemma {:induction false} RecommendsIffReports(reports: seq<Provider>)
    ensures DecisionSummary(reports).recommended.None? <==> reports == []
    ensures reports == [] ==> DecisionSummary(reports).score == 0.0
    ensures |DecisionSummary(reports).providers| == |reports|
    ensures multiset(ProvidersOf(DecisionSummary(reports).providers)) == multiset(reports)
    ensures SortedBy(DecisionSummary(reports).providers, ScoreOrder)
  {
    hide Ranking, SortedBy;
    RankingIsSortedPermutation(reports);
  }

  lemma {:induction false} HeadComesFirst(ranking: seq<Scored>, n: nat)
    requires SortedBy(ranking, ScoreOrder) && n < |ranking|
    ensures ScoreOrder(ranking[0], ranking[n])
  {
    hide NameAtMost;
    if n == 0 {
      NamesAreOrdered(ranking[0].provider.name, ranking[0].provider.name);
    }
  }

  /** What comes first is no worse than a report that is at least as good only if the two
      differ in nothing that the sort key sees but the name. */
  lemma {:induction false} OnlyTiesComeAfter(a: Scored, b: Scored)
    requires ScoreOrder(a, b) && b.score >= a.score && AtLeastAsGood(b.provider, a.provider)
    ensures a.score == b.score && AlikeButErrorRate(a.provider, b.provider)
    ensures NameAtMost(a.provider.name, b.provider.name)
  {
    hide NameAtMost;
  }

  lemma {:induction false} RankedFrom(reports: seq<Provider>, m: nat) returns (i: nat)
    requires m < |Ranking(reports)|
    ensures i < |reports| && Ranking(reports)[m] == ScoreAll(reports)[i]
  {
    hide Ranking;
    RankingIsSortedPermutation(reports);
    assert Ranking(reports)[m] in multiset(Ranking(reports));
    i :| 0 <= i < |reports| && ScoreAll(reports)[i] == Ranking(reports)[m];
  }

  lemma {:induction false} RankedAt(reports: seq<Provider>, j: nat) returns (n: nat)
    requires j < |reports|
    ensures n < |Ranking(reports)| && Ranking(reports)[n] == ScoreAll(reports)[j]
  {
    hide Ranking;
    RankingIsSortedPermutation(reports);
    assert ScoreAll(reports)[j] in multiset(ScoreAll(reports));
    n :| 0 <= n < |Ranking(reports)| && Ranking(reports)[n] == ScoreAll(reports)[j];
  }

  /** The recommended report scores highest. A report that is at least as good in every
      respect can differ from it only in name and error rate, with the same rounded score and
      a name that does not sort earlier; so none is strictly better. */
  lemma {:induction false} RecommendationIsUnbeaten(reports: seq<Provider>) returns (i: nat)
    requires reports != []
    ensures i < |reports| && DecisionSummary(reports).recommended == Some(reports[i].name)
    ensures DecisionSummary(reports).score == ScoreAll(reports)[i].score
    ensures forall j :: 0 <= j < |reports| ==> ScoreAll(reports)[j].score <= ScoreAll(reports)[i].score
    ensures forall j :: 0 <= j < |reports| && AtLeastAsGood(reports[j], reports[i]) ==>
              && ScoreAll(reports)[j].score == ScoreAll(reports)[i].score
              && AlikeButErrorRate(reports[i], reports[j]) && NameAtMost(reports[i].name, reports[j].name)
    ensures forall j :: 0 <= j < |reports| ==> !StrictlyBetter(reports[j], reports[i])
  {
    hide Ranking, SortedBy, NameAtMost;
    RankingIsSortedPermutation(reports);
    i := RankedFrom(reports, 0);
    var scored := ScoreAll(reports);
    forall j | 0 <= j < |reports|
      ensures scored[j].score <= scored[i].score
      ensures AtLeastAsGood(reports[j], reports[i]) ==>
                && scored[j].score == scored[i].score
                && AlikeButErrorRate(reports[i], reports[j]) && NameAtMost(reports[i].name, reports[j].name)
    {
      var n := RankedAt(reports, j);
      HeadComesFirst(Ranking(reports), n);
      if AtLeastAsGood(reports[j], reports[i]) {
        DominatingScoreIsNotLower(reports, j, i);
        OnlyTiesComeAfter(scored[i], scored[j]);
      }
    }
  }

  // ------------------------------------------------------------ the plain ranking

  /** `_rank_providers`: the reports in order, numbered from 1. */
  function RankProviders(reports: seq<Provider>): (r: seq<(nat, Provider)>)
    ensures |r| == |Sort(reports, RankOrder)|
    ensures forall n :: 0 <= n < |r| ==> r[n] == (n + 1, Sort(reports, RankOrder)[n])
  {
    var ordered := Sort(reports, RankOrder);
    seq(|ordered|, n requires 0 <= n < |ordered| => (n + 1, ordered[n]))
  }

  /** The places of the plain ranking go by success, then accuracy, then error rate, then cost
      with the unknown last, then latency, then the order the reports were listed in. */
  lemma {:induction false} RanksGoDownTheList(reports: seq<Provider>, i: nat, j: nat)
    requires i < |reports| && j < |reports| && i != j
    ensures var m, n := Place(reports, i, RankOrder), Place(reports, j, RankOrder);
            && m < |RankProviders(reports)| && RankProviders(reports)[m] == (m + 1, reports[i])
            && n < |RankProviders(reports)| && RankProviders(reports)[n] == (n + 1, reports[j])
            && var p, q := reports[i], reports[j];
               && (p.success > q.success ==> m < n)
               && (p.success == q.success && p.accuracy > q.accuracy ==> m < n)
               && (p.success == q.success && p.accuracy == q.accuracy ==>
                     && (p.errorRate < q.errorRate ==> m < n)
                     && (p.errorRate == q.errorRate && p.cost != q.cost && CostAtMost(p.cost, q.cost) ==> m < n)
                     && (p.errorRate == q.errorRate && p.cost == q.cost ==>
                           && (p.latency < q.latency ==> m < n)
                           && (p.latency == q.latency ==> (m < n <==> i < j))))
  {
    hide Place, Sort, TotalPreorder;
    RankOrderIsAnOrder();
    SortPlaces(reports, RankOrder, i);
    SortPlaces(reports, RankOrder, j);
    PlacesFollowTheOrder(reports, RankOrder, i, j);
  }

  /** Here every respect counts: a provider at least as good in all and better in one,
      the error rate included, has the smaller rank. */
  lemma {:induction false} RanksRespectDominance(reports: seq<Provider>, m: nat, n: nat)
    requires m < |RankProviders(reports)| && n < |RankProviders(reports)|
    ensures |RankProviders(reports)| == |reports|
    ensures multiset(Sort(reports, RankOrder)) == multiset(reports)
    ensures var (rank, p) := RankProviders(reports)[m];
            var (other, q) := RankProviders(reports)[n];
            AtLeastAsGood(p, q) && (StrictlyBetter(p, q) || p.errorRate < q.errorRate) ==> rank < other
  {
    hide Sort, TotalPreorder;
    RankOrderIsAnOrder();
    SortSorts(reports, RankOrder);
    var p, q := RankProviders(reports)[m].1, RankProviders(reports)[n].1;
    if AtLeastAsGood(p, q) && (StrictlyBetter(p, q) || p.errorRate < q.errorRate) {
      assert !RankOrder(q, p);
    }
  }
}
