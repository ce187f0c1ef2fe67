/**
 * Recovering an interval's draft count from its printed figures (`recover_drafts` of scripts/ci/acceptance_report.py).
 * A printed rate is a whole number of thousandths and a printed mean a whole number of hundredths; quotients are exact
 * rationals, rounded to the nearest, ties to even, as Python's `round` and `%` formatting do.
 */
module DraftRecovery {
  import opened Arithmetic
  import opened Results

  /** p / q rounded to the nearest integer, ties to even. */
  function Rounded(p: nat, q: nat): nat
    requires q > 0
  {
    var floor, rest := Quotient(p, q), Remainder(p, q);
    if 2 * rest < q || (2 * rest == q && floor % 2 == 0) then floor else floor + 1
  }

  /** r is within half a unit of p / q. */
  predicate Near(r: nat, p: nat, q: nat) {
    2 * At(r, q) <= 2 * p + q && 2 * p <= 2 * At(r, q) + q
  }

  lemma RoundedIsNear(p: nat, q: nat)
    requires q > 0
    ensures Near(Rounded(p, q), p, q)
  {
    Divided(p, q);
  }

  /** An integer strictly within half a unit is the rounded value. */
  lemma NearIsRounded(r: nat, p: nat, q: nat)
    requires q > 0 && 2 * At(r, q) < 2 * p + q && 2 * p < 2 * At(r, q) + q
    ensures Rounded(p, q) == r
  {
    Divided(p, q);
    var floor := Quotient(p, q);
    if r < floor {
      AtGrows(r, floor, q);
    } else if r > floor + 1 {
      AtGrows(floor + 1, r, q);
    }
  }

  /** Whole multiples are unchanged. */
  lemma RoundedExact(r: nat, q: nat)
    requires q > 0
    ensures Rounded(At(r, q), q) == r
  {
    NearIsRounded(r, At(r, q), q);
  }

  // ----- Printed figures

  /** '%.3f' of count / n, in thousandths. */
  function PrintedRate(count: nat, n: nat): nat
    requires n > 0
  {
    Rounded(1000 * count, n)
  }

  /** '%.2f' of 1 + accepted / n, in hundredths. */
  function PrintedMean(accepted: nat, n: nat): nat
    requires n > 0
  {
    Rounded(100 * (n + accepted), n)
  }

  /** round(rate * n): the accepted count a printed rate stands for. */
  function CountFrom(rate: nat, n: nat): nat {
    Rounded(At(rate, n), 1000)
  }

  /** Up to a thousand drafts, a printed rate gives the count back. */
  lemma CountRecovered(count: nat, n: nat)
    requires 0 < n <= 1000
    ensures CountFrom(PrintedRate(count, n), n) == count
  {
    var rate := PrintedRate(count, n);
    RoundedIsNear(1000 * count, n);
    AtIsProduct(count, 1000);
    if n == 1000 {
      RoundedExact(count, 1000);
      AtIsProduct(rate, n);
      RoundedExact(rate, 1000);
    } else {
      NearIsRounded(count, At(rate, n), 1000);
    }
  }

  lemma {:induction false} PrintedRatesRise(n: nat, count: nat)
    requires n > 0 && count <= n
    requires forall c :: 0 <= c < count ==> PrintedRate(c, n) != PrintedRate(c + 1, n)
    ensures PrintedRate(count, n) >= count
  {
    if count > 0 {
      PrintedRatesRise(n, count - 1);
      RoundedMonotone(1000 * (count - 1), 1000 * count, n);
      assert PrintedRate(count - 1, n) != PrintedRate(count - 1 + 1, n);
    }
  }

  lemma RoundedMonotone(a: nat, b: nat, q: nat)
    requires q > 0 && a <= b
    ensures Rounded(a, q) <= Rounded(b, q)
  {
    Divided(a, q);
    Divided(b, q);
    QuotientOrder(a, b, q);
    if Quotient(a, q) < Quotient(b, q) {
    } else {
      assert Remainder(a, q) <= Remainder(b, q);
    }
  }

  /** Printed rates give every count back exactly when there are at most a thousand drafts. */
  lemma CountsRecoverableUpToThousand(n: nat)
    requires n > 0
    ensures (forall count :: 0 <= count <= n ==> CountFrom(PrintedRate(count, n), n) == count) <==> n <= 1000
  {
    if n <= 1000 {
      forall count | 0 <= count <= n ensures CountFrom(PrintedRate(count, n), n) == count {
        CountRecovered(count, n);
      }
    } else {
      AtIsProduct(1000, n);
      RoundedExact(1000, n);
      assert PrintedRate(n, n) == 1000;
      if forall c :: 0 <= c < n ==> PrintedRate(c, n) != PrintedRate(c + 1, n) {
        PrintedRatesRise(n, n);
      }
      var c :| 0 <= c < n && PrintedRate(c, n) == PrintedRate(c + 1, n);
      assert CountFrom(PrintedRate(c, n), n) == CountFrom(PrintedRate(c + 1, n), n);
    }
  }

  // ----- recover_drafts

  datatype Recovery =
    | NoDrafts
    | Exact(drafts: nat)
    | NoAcceptance(drafts: nat)
    | Ambiguous(drafts: nat)
    | FromMean(drafts: nat)
    | Unknown

  /** One interval as printed: the mean (None for nan), accepted and drafted tokens, and a rate per position. */
  datatype Interval = Interval(mean: Option<nat>, accepted: nat, drafted: int, rates: seq<nat>)

  const POSITIONS: nat := 15

  function Width(i: Interval): nat { if i.rates == [] then POSITIONS else |i.rates| }

  /** ceil(drafted / width). */
  function Least(i: Interval): (n: nat)
    requires i.drafted > 0
    ensures n > 0
  {
    Quotient(i.drafted + Width(i) - 1, Width(i))
  }

  function Counts(rates: seq<nat>, n: nat): (counts: seq<nat>)
    ensures |counts| == |rates| && forall k :: 0 <= k < |rates| ==> counts[k] == CountFrom(rates[k], n)
  {
    seq(|rates|, (k: nat) requires k < |rates| => CountFrom(rates[k], n))
  }

  function Sum(counts: seq<nat>): nat {
    if counts == [] then 0 else Sum(counts[..|counts| - 1]) + counts[|counts| - 1]
  }

  /** The checks a draft count must pass. */
  predicate Fits(i: Interval, n: nat)
    requires n > 0
  {
    && Sum(Counts(i.rates, n)) == i.accepted
    && (forall k :: 0 <= k < |i.rates| ==> PrintedRate(Counts(i.rates, n)[k], n) == i.rates[k])
    && (i.mean.Some? ==> PrintedMean(i.accepted, n) == i.mean.value)
  }

  /** The fitting draft counts from the least one up to `stop`. */
  function Matches(i: Interval, least: nat, stop: nat): seq<nat>
    requires least > 0
    decreases stop
  {
    if stop <= least then [] else Matches(i, least, stop - 1) + if Fits(i, stop - 1) then [stop - 1] else []
  }

  lemma {:induction false} MatchesFit(i: Interval, least: nat, stop: nat, n: nat)
    requires least > 0
    ensures n in Matches(i, least, stop) <==> least <= n < stop && Fits(i, n)
    decreases stop
  {
    if stop > least {
      MatchesFit(i, least, stop - 1, n);
    }
  }

  predicate Rising(matches: seq<nat>) {
    forall x, y :: 0 <= x < y < |matches| ==> matches[x] < matches[y]
  }

  lemma {:induction false} MatchesRise(i: Interval, least: nat, stop: nat)
    requires least > 0
    ensures Rising(Matches(i, least, stop))
    decreases stop
  {
    if stop > least {
      MatchesRise(i, least, stop - 1);
      var front := Matches(i, least, stop - 1);
      forall x | 0 <= x < |front| ensures front[x] < stop - 1 {
        MatchesFit(i, least, stop - 1, front[x]);
      }
      RisingExtends(front, stop - 1);
    }
  }

  lemma RisingExtends(front: seq<nat>, n: nat)
    requires Rising(front) && forall x :: 0 <= x < |front| ==> front[x] < n
    ensures Rising(front + [n])
  {
  }

  /** All fitting draft counts of an interval. */
  function MatchesOf(i: Interval): seq<nat>
    requires i.drafted > 0
  {
    Matches(i, Least(i), i.drafted + 1)
  }

  /** |a / b - n| for the estimate a / b, scaled by b. */
  function Distance(a: nat, b: nat, n: nat): nat {
    if a < n * b then n * b - a else a - n * b
  }

  /** The nearest of the first `k` matches to the estimate a / b; the least of them when two are equally near. */
  function Nearest(matches: seq<nat>, k: nat, a: nat, b: nat): nat
    requires 0 < k <= |matches|
  {
    if k == 1 then matches[0]
    else
      var best := Nearest(matches, k - 1, a, b);
      if Distance(a, b, matches[k - 1]) < Distance(a, b, best) then matches[k - 1] else best
  }

  lemma {:induction false} NearestIsNearest(matches: seq<nat>, k: nat, a: nat, b: nat)
    requires 0 < k <= |matches| && Rising(matches)
    ensures var best := Nearest(matches, k, a, b);
      && best in matches[..k]
      && forall j :: 0 <= j < k ==> Distance(a, b, best) < Distance(a, b, matches[j]) ||
                                    (Distance(a, b, best) == Distance(a, b, matches[j]) && best <= matches[j])
  {
    if k > 1 {
      NearestIsNearest(matches, k - 1, a, b);
      assert matches[..k] == matches[..k - 1] + [matches[k - 1]];
      var before := Nearest(matches, k - 1, a, b);
      var x :| 0 <= x < |matches[..k - 1]| && matches[..k - 1][x] == before;
      assert matches[x] == before && before < matches[k - 1];
    }
  }

  /** Whether the printed mean gives an estimate of the draft count. */
  predicate Estimates(i: Interval) { i.mean.Some? && i.mean.value > 100 }

  function RecoveredOf(i: Interval): Recovery {
    if i.drafted <= 0 then NoDrafts
    else
      var matches := MatchesOf(i);
      if |matches| == 1 then Exact(matches[0])
      else if i.accepted == 0 then NoAcceptance(Least(i))
      else if matches != [] then
        Ambiguous(if Estimates(i) then Nearest(matches, |matches|, 100 * i.accepted, i.mean.value - 100)
                  else matches[0])
      else if Estimates(i) then FromMean(Rounded(100 * i.accepted, i.mean.value - 100))
      else Unknown
  }

  lemma {:induction false} AtLeastItself(n: nat, w: nat)
    requires w > 0
    ensures At(n, w) >= n
  {
    if n > 0 {
      AtLeastItself(n - 1, w);
    }
  }

  lemma LeastIsLeast(i: Interval, n: nat)
    requires i.drafted > 0 && i.drafted <= At(n, Width(i))
    ensures Least(i) <= n
  {
    var w := Width(i);
    QuotientShift(w - 1, n, w);
    QuotientOrder(i.drafted + w - 1, At(n, w) + (w - 1), w);
  }

  lemma LeastInRange(i: Interval)
    requires i.drafted > 0
    ensures Least(i) <= i.drafted
  {
    AtLeastItself(i.drafted, Width(i));
    LeastIsLeast(i, i.drafted);
  }

  // ----- What the answer is

  /** r is p / q rounded to the nearest integer, ties to even. */
  predicate IsRounded(r: nat, p: nat, q: nat) {
    Near(r, p, q) && (2 * At(r, q) == 2 * p + q || 2 * p == 2 * At(r, q) + q ==> r % 2 == 0)
  }

  lemma RoundedIs(p: nat, q: nat)
    requires q > 0
    ensures IsRounded(Rounded(p, q), p, q)
  {
    Divided(p, q);
  }

  /** `n` drafts of one to `Width` proposals each can have drafted the tokens, and reproduce the printed figures. */
  predicate Candidate(i: Interval, n: nat) {
    0 < n <= i.drafted <= At(n, Width(i)) && Fits(i, n)
  }

  /** `d` drafts of full width, the last one perhaps not full. */
  predicate FullWidth(i: Interval, d: nat) {
    0 < d && At(d - 1, Width(i)) < i.drafted <= At(d, Width(i))
  }

  /** Exactly one count fits. */
  ghost predicate Unique(i: Interval) {
    exists n: nat :: Candidate(i, n) && forall m: nat :: Candidate(i, m) ==> m == n
  }

  function Abs(x: int): nat { if x < 0 then -x else x }

  /** `d` is nearer to a / b than `m`, or as near and not larger; distances are scaled by `b`. */
  predicate Nearer(a: nat, b: nat, d: nat, m: nat) {
    var own, other := Abs(d * b - a), Abs(m * b - a);
    own < other || (own == other && d <= m)
  }

  /** No candidate is nearer to accepted / (mean - 1), and none as near is smaller. */
  ghost predicate NearestCandidate(i: Interval, d: nat)
    requires i.mean.Some? && i.mean.value > 100
  {
    Candidate(i, d) &&
    forall m: nat :: Candidate(i, m) ==> Nearer(100 * i.accepted, i.mean.value - 100, d, m)
  }

  ghost predicate LeastCandidate(i: Interval, d: nat) {
    Candidate(i, d) && forall m: nat :: Candidate(i, m) ==> d <= m
  }

  /** The answer an interval deserves, by the counts that fit it, its accepted tokens and its mean. */
  ghost predicate Deserved(i: Interval, r: Recovery) {
    if i.drafted <= 0 then r.NoDrafts?
    else if Unique(i) then r.Exact? && Candidate(i, r.drafts)
    else if i.accepted == 0 then r.NoAcceptance? && FullWidth(i, r.drafts)
    else if exists n: nat :: Candidate(i, n) then
      r.Ambiguous? && if i.mean.Some? && i.mean.value > 100 then NearestCandidate(i, r.drafts)
                      else LeastCandidate(i, r.drafts)
    else if i.mean.Some? && i.mean.value > 100 then
      r.FromMean? && IsRounded(r.drafts, 100 * i.accepted, i.mean.value - 100)
    else r.Unknown?
  }

  lemma LeastIsFullWidth(i: Interval)
    requires i.drafted > 0
    ensures FullWidth(i, Least(i))
  {
    var w, d := Width(i), Least(i);
    Divided(i.drafted + w - 1, w);
  }

  lemma MatchesAreCandidates(i: Interval, n: nat)
    requires i.drafted > 0
    ensures n in MatchesOf(i) <==> Candidate(i, n)
  {
    MatchesFit(i, Least(i), i.drafted + 1, n);
    LeastIsFullWidth(i);
    if Least(i) <= n {
      AtGrows(Least(i), n, Width(i));
    }
    if Candidate(i, n) {
      LeastIsLeast(i, n);
    }
  }

  lemma UniqueMatch(i: Interval)
    requires i.drafted > 0
    ensures |MatchesOf(i)| == 1 <==> Unique(i)
  {
    var matches := MatchesOf(i);
    MatchesRise(i, Least(i), i.drafted + 1);
    forall n ensures n in matches <==> Candidate(i, n) {
      MatchesAreCandidates(i, n);
    }
    if |matches| == 1 {
      assert matches[0] in matches;
    } else if |matches| > 1 {
      assert matches[0] in matches && matches[1] in matches && matches[0] < matches[1];
    }
  }

  lemma NearestIsNearer(matches: seq<nat>, a: nat, b: nat, m: nat)
    requires matches != [] && Rising(matches) && m in matches
    ensures var best := Nearest(matches, |matches|, a, b);
      best in matches && Nearer(a, b, best, m)
  {
    NearestIsNearest(matches, |matches|, a, b);
    assert matches[..|matches|] == matches;
    var j :| 0 <= j < |matches| && matches[j] == m;
  }

  lemma NearestMatchIs(i: Interval)
    requires i.drafted > 0 && Estimates(i) && MatchesOf(i) != []
    ensures NearestCandidate(i, Nearest(MatchesOf(i), |MatchesOf(i)|, 100 * i.accepted, i.mean.value - 100))
  {
    var matches, a, b := MatchesOf(i), 100 * i.accepted, i.mean.value - 100;
    var best := Nearest(matches, |matches|, a, b);
    MatchesRise(i, Least(i), i.drafted + 1);
    NearestIsNearer(matches, a, b, matches[0]);
    MatchesAreCandidates(i, best);
    forall m: nat | Candidate(i, m) ensures Nearer(a, b, best, m) {
      MatchesAreCandidates(i, m);
      NearestIsNearer(matches, a, b, m);
    }
  }

  lemma LeastMatchIs(i: Interval)
    requires i.drafted > 0 && MatchesOf(i) != []
    ensures LeastCandidate(i, MatchesOf(i)[0])
  {
    var matches := MatchesOf(i);
    MatchesRise(i, Least(i), i.drafted + 1);
    MatchesAreCandidates(i, matches[0]);
    forall m | Candidate(i, m) ensures matches[0] <= m {
      MatchesAreCandidates(i, m);
      var j :| 0 <= j < |matches| && matches[j] == m;
    }
  }

  lemma SeveralMatches(i: Interval)
    requires i.drafted > 0 && MatchesOf(i) != []
    ensures exists n: nat :: Candidate(i, n)
    ensures LeastCandidate(i, MatchesOf(i)[0])
    ensures Estimates(i) ==>
              NearestCandidate(i, Nearest(MatchesOf(i), |MatchesOf(i)|, 100 * i.accepted, i.mean.value - 100))
  {
    MatchesAreCandidates(i, MatchesOf(i)[0]);
    LeastMatchIs(i);
    if Estimates(i) {
      NearestMatchIs(i);
    }
  }

  lemma NoMatches(i: Interval)
    requires i.drafted > 0 && MatchesOf(i) == []
    ensures !exists n: nat :: Candidate(i, n)
  {
    forall n: nat ensures !Candidate(i, n) {
      MatchesAreCandidates(i, n);
    }
  }

  /** Every interval gets the answer it deserves. */
  lemma RecoveredIsDeserved(i: Interval)
    ensures Deserved(i, RecoveredOf(i))
  {
    if i.drafted > 0 {
      UniqueMatch(i);
      LeastIsFullWidth(i);
      if MatchesOf(i) != [] {
        SeveralMatches(i);
      } else {
        NoMatches(i);
        if Estimates(i) {
          RoundedIs(100 * i.accepted, i.mean.value - 100);
        }
      }
    }
  }

  /** The matching loop. */
  method MatchingDrafts(i: Interval) returns (matches: seq<nat>)
    requires i.drafted > 0
    ensures matches == MatchesOf(i)
  {
    LeastInRange(i);
    matches := [];
    var least := Least(i);
    for n := least to i.drafted + 1
      invariant matches == Matches(i, least, n)
    {
      if Fits(i, n) {
        matches := matches + [n];
      }
    }
  }

  /** The least of the matches by distance to the estimate. */
  method NearestMatch(matches: seq<nat>, a: nat, b: nat) returns (best: nat)
    requires matches != []
    ensures best == Nearest(matches, |matches|, a, b)
  {
    best := matches[0];
    for k := 1 to |matches|
      invariant best == Nearest(matches, k, a, b)
    {
      if Distance(a, b, matches[k]) < Distance(a, b, best) {
        best := matches[k];
      }
    }
  }

  /** `recover_drafts`. */
  method RecoverDrafts(i: Interval) returns (r: Recovery)
    ensures r == RecoveredOf(i) && Deserved(i, r)
  {
    if i.drafted <= 0 {
      r := NoDrafts;
    } else {
      var matches := MatchingDrafts(i);
      if |matches| == 1 {
        r := Exact(matches[0]);
      } else if i.accepted == 0 {
        r := NoAcceptance(Least(i));
      } else if matches != [] {
        var best := matches[0];
        if Estimates(i) {
          best := NearestMatch(matches, 100 * i.accepted, i.mean.value - 100);
        }
        r := Ambiguous(best);
      } else if Estimates(i) {
        r := FromMean(Rounded(100 * i.accepted, i.mean.value - 100));
      } else {
        r := Unknown;
      }
    }
    assert r == RecoveredOf(i);
    RecoveredIsDeserved(i);
  }

  // ----- What a recovered count says

  /** An interval printed for `n` drafts of one to `Width` proposals each, with these accepted counts per position. */
  predicate PrintedFor(i: Interval, n: nat, counts: seq<nat>) {
    && n > 0 && n <= i.drafted <= At(n, Width(i))
    && |counts| == |i.rates| && i.accepted == Sum(counts)
    && (forall k :: 0 <= k < |counts| ==> i.rates[k] == PrintedRate(counts[k], n))
    && (i.mean.Some? ==> i.mean.value == PrintedMean(i.accepted, n))
  }

  /** The true draft count, up to a thousand, is always among the matches. */
  lemma TrueDraftsMatch(i: Interval, n: nat, counts: seq<nat>)
    requires PrintedFor(i, n, counts) && n <= 1000
    ensures n in MatchesOf(i)
  {
    LeastIsLeast(i, n);
    forall k | 0 <= k < |counts| ensures CountFrom(i.rates[k], n) == counts[k] {
      CountRecovered(counts[k], n);
    }
    assert Counts(i.rates, n) == counts;
    MatchesFit(i, Least(i), i.drafted + 1, n);
  }

  /**
   * A no-acceptance answer is at most the true draft count. Up to a thousand drafts, so whenever at most a thousand
   * tokens were drafted, an exact answer is the true count, otherwise the true count is one of several that fit, and
   * the figures never fall through to the mean alone.
   */
  lemma RecoveryIsSound(i: Interval, n: nat, counts: seq<nat>)
    requires PrintedFor(i, n, counts)
    ensures RecoveredOf(i).NoAcceptance? ==> RecoveredOf(i).drafts <= n
    ensures i.drafted <= 1000 ==> n <= 1000
    ensures n <= 1000 ==> RecoveredOf(i).Exact? || RecoveredOf(i).NoAcceptance? || RecoveredOf(i).Ambiguous?
    ensures n <= 1000 && RecoveredOf(i).Exact? ==> RecoveredOf(i).drafts == n
    ensures n <= 1000 && RecoveredOf(i).Ambiguous? ==> n in MatchesOf(i) && |MatchesOf(i)| > 1
  {
    LeastIsLeast(i, n);
    if n <= 1000 {
      TrueDraftsMatch(i, n, counts);
    }
  }

  /** What is printed for `n` drafts of one proposal each, of which `count` were accepted. */
  function OneRate(count: nat, n: nat): Interval
    requires n > 0
  {
    Interval(Some(PrintedMean(count, n)), count, n, [PrintedRate(count, n)])
  }

  /** Past a thousand drafts some counts are lost: an interval of n drafts whose true n is not among the matches. */
  lemma LargeIntervalsCanFail(n: nat)
    requires n > 1000
    ensures exists count :: 0 <= count <= n && PrintedFor(OneRate(count, n), n, [count]) &&
              n !in MatchesOf(OneRate(count, n))
  {
    CountsRecoverableUpToThousand(n);
    var count :| 0 <= count <= n && CountFrom(PrintedRate(count, n), n) != count;
    var i := OneRate(count, n);
    OneRatePrinted(count, n);
    OneRateMisfits(count, n);
    MatchesFit(i, Least(i), i.drafted + 1, n);
    assert PrintedFor(OneRate(count, n), n, [count]);
  }

  lemma OneRatePrinted(count: nat, n: nat)
    requires 0 < n && count <= n
    ensures PrintedFor(OneRate(count, n), n, [count])
  {
    assert Sum([count]) == count by {
      assert [count][..0] == [];
    }
    AtIsProduct(n, 1);
  }

  lemma OneRateMisfits(count: nat, n: nat)
    requires 0 < n && CountFrom(PrintedRate(count, n), n) != count
    ensures !Fits(OneRate(count, n), n)
  {
    var counts := Counts([PrintedRate(count, n)], n);
    assert Sum(counts) == CountFrom(PrintedRate(count, n), n) by {
      assert counts[..0] == [];
    }
  }
}
