/**
 * For which printed intervals `recover_drafts` of scripts/ci/acceptance_report.py can be trusted, in terms of what is
 * printed: the drafted tokens and the number of positions.
 */
module DraftSoundness {
  import opened Arithmetic
  import opened DraftRecovery
  import opened Results

  // ----- What an interval is printed from

  /** One verified draft: the tokens it proposed and how many of them, from the first on, were accepted. */
  datatype Draft = Draft(proposed: nat, accepted: nat)

  predicate Proper(d: Draft, width: nat) { 1 <= d.proposed <= width && d.accepted <= d.proposed }

  function Proposed(drafts: seq<Draft>): nat {
    if drafts == [] then 0 else Proposed(drafts[..|drafts| - 1]) + drafts[|drafts| - 1].proposed
  }

  function Accepted(drafts: seq<Draft>): nat {
    if drafts == [] then 0 else Accepted(drafts[..|drafts| - 1]) + drafts[|drafts| - 1].accepted
  }

  /** How many drafts had their token at position `k` accepted. */
  function AcceptedAt(drafts: seq<Draft>, k: nat): (count: nat)
    ensures count <= |drafts|
  {
    if drafts == [] then 0
    else AcceptedAt(drafts[..|drafts| - 1], k) + if drafts[|drafts| - 1].accepted > k then 1 else 0
  }

  /** The interval is what is printed for these drafts, a rate for each position, or none when nothing was accepted. */
  predicate PrintedOf(i: Interval, drafts: seq<Draft>) {
    && drafts != [] && (forall j :: 0 <= j < |drafts| ==> Proper(drafts[j], Width(i)))
    && i.drafted == Proposed(drafts) && i.accepted == Accepted(drafts) && (i.rates == [] ==> i.accepted == 0)
    && (forall k :: 0 <= k < |i.rates| ==> i.rates[k] == PrintedRate(AcceptedAt(drafts, k), |drafts|))
    && (i.mean.Some? ==> i.mean.value == PrintedMean(i.accepted, |drafts|))
  }

  /** The accepted counts of the first `width` positions. */
  function PositionCounts(drafts: seq<Draft>, width: nat): (counts: seq<nat>)
    ensures |counts| == width && forall k :: 0 <= k < width ==> counts[k] == AcceptedAt(drafts, k)
  {
    seq(width, (k: nat) => AcceptedAt(drafts, k))
  }

  /** What one draft adds to the counts of the first `width` positions. */
  function Marks(accepted: nat, width: nat): (marks: seq<nat>)
    ensures |marks| == width && forall k :: 0 <= k < width ==> marks[k] == if accepted > k then 1 else 0
  {
    seq(width, (k: nat) => if accepted > k then 1 else 0)
  }

  lemma {:induction false} MarksSum(accepted: nat, width: nat)
    ensures Sum(Marks(accepted, width)) == if accepted < width then accepted else width
  {
    if width > 0 {
      MarksSum(accepted, width - 1);
      assert Marks(accepted, width)[..width - 1] == Marks(accepted, width - 1);
    }
  }

  lemma {:induction false} SumAdds(a: seq<nat>, b: seq<nat>, c: seq<nat>)
    requires |a| == |b| == |c| && forall k :: 0 <= k < |c| ==> c[k] == a[k] + b[k]
    ensures Sum(c) == Sum(a) + Sum(b)
  {
    if c != [] {
      SumAdds(a[..|a| - 1], b[..|b| - 1], c[..|c| - 1]);
    }
  }

  lemma {:induction false} ZeroSum(counts: seq<nat>)
    requires forall k :: 0 <= k < |counts| ==> counts[k] == 0
    ensures Sum(counts) == 0
  {
    if counts != [] {
      ZeroSum(counts[..|counts| - 1]);
    }
  }

  /** Counted by position or by draft, the accepted tokens are the same. */
  lemma {:induction false} PositionsAddUp(drafts: seq<Draft>, width: nat)
    requires forall j :: 0 <= j < |drafts| ==> drafts[j].accepted <= width
    ensures Sum(PositionCounts(drafts, width)) == Accepted(drafts)
  {
    if drafts == [] {
      ZeroSum(PositionCounts(drafts, width));
    } else {
      var front, last := drafts[..|drafts| - 1], drafts[|drafts| - 1];
      PositionsAddUp(front, width);
      MarksSum(last.accepted, width);
      SumAdds(PositionCounts(front, width), Marks(last.accepted, width), PositionCounts(drafts, width));
    }
  }

  lemma {:induction false} ProposedBounds(drafts: seq<Draft>, width: nat)
    requires forall j :: 0 <= j < |drafts| ==> Proper(drafts[j], width)
    ensures |drafts| <= Proposed(drafts) <= At(|drafts|, width)
  {
    if drafts != [] {
      assert Proper(drafts[|drafts| - 1], width);
      ProposedBounds(drafts[..|drafts| - 1], width);
    }
  }

  /** Printed drafts are printed figures. */
  lemma PrintedOfDrafts(i: Interval, drafts: seq<Draft>)
    requires PrintedOf(i, drafts)
    ensures PrintedFor(i, |drafts|, PositionCounts(drafts, |i.rates|))
  {
    ProposedBounds(drafts, Width(i));
    if i.rates == [] {
      assert PositionCounts(drafts, |i.rates|) == [];
    } else {
      forall j | 0 <= j < |drafts| ensures drafts[j].accepted <= |i.rates| {
        assert Proper(drafts[j], Width(i));
      }
      PositionsAddUp(drafts, |i.rates|);
    }
  }

  // ----- When the true count is among the matches

  /** Accepted tokens without any rate fit no count: the search needs the rates to find them. */
  lemma RatelessNeverMatches(i: Interval)
    requires i.rates == [] && i.accepted > 0 && i.drafted > 0
    ensures MatchesOf(i) == []
  {
    if MatchesOf(i) != [] {
      var m := MatchesOf(i)[0];
      MatchesFit(i, Least(i), i.drafted + 1, m);
    }
  }

  /** Without rates every count fits. */
  lemma NoRatesMatch(i: Interval, n: nat, counts: seq<nat>)
    requires PrintedFor(i, n, counts) && i.rates == []
    ensures n in MatchesOf(i)
  {
    LeastIsLeast(i, n);
    assert Counts(i.rates, n) == [];
    MatchesFit(i, Least(i), i.drafted + 1, n);
  }

  /** `n` drafts, the first `longer` of which proposed two tokens, and the first `count` of which had one accepted. */
  function Sample(n: nat, longer: nat, count: nat): (drafts: seq<Draft>)
    ensures |drafts| == n
  {
    if n == 0 then []
    else Sample(n - 1, longer, count) + [Draft(if n - 1 < longer then 2 else 1, if n - 1 < count then 1 else 0)]
  }

  lemma {:induction false} SampleProposed(n: nat, longer: nat, count: nat)
    ensures Proposed(Sample(n, longer, count)) == n + if longer < n then longer else n
  {
    if n > 0 {
      SampleProposed(n - 1, longer, count);
      assert Sample(n, longer, count)[..n - 1] == Sample(n - 1, longer, count);
    }
  }

  lemma {:induction false} SampleProper(n: nat, longer: nat, count: nat, width: nat)
    requires width >= 1 && (longer > 0 ==> width >= 2)
    ensures forall j :: 0 <= j < n ==> Proper(Sample(n, longer, count)[j], width)
  {
    if n > 0 {
      SampleProper(n - 1, longer, count, width);
    }
  }

  lemma {:induction false} SampleAccepted(n: nat, longer: nat, count: nat)
    ensures Accepted(Sample(n, longer, count)) == if count < n then count else n
  {
    if n > 0 {
      SampleAccepted(n - 1, longer, count);
      assert Sample(n, longer, count)[..n - 1] == Sample(n - 1, longer, count);
    }
  }

  lemma {:induction false} SampleAcceptedAt(n: nat, longer: nat, count: nat, k: nat)
    ensures AcceptedAt(Sample(n, longer, count), k) == if k > 0 then 0 else if count < n then count else n
  {
    if n > 0 {
      SampleAcceptedAt(n - 1, longer, count, k);
      assert Sample(n, longer, count)[..n - 1] == Sample(n - 1, longer, count);
    }
  }

  /** One position's rate and zeros for the others. */
  function Padded(rate: nat, width: nat): (rates: seq<nat>)
    ensures |rates| == width && forall k :: 0 <= k < width ==> rates[k] == if k == 0 then rate else 0
  {
    seq(width, (k: nat) => if k == 0 then rate else 0)
  }

  /** What is printed for a sample, over `width` positions. */
  function SampleInterval(n: nat, longer: nat, count: nat, width: nat): Interval
    requires n > 0
  {
    Interval(Some(PrintedMean(count, n)), count, n + longer, Padded(PrintedRate(count, n), width))
  }

  lemma ZeroPrinted(n: nat)
    requires n > 0
    ensures PrintedRate(0, n) == 0 && CountFrom(0, n) == 0
  {
    RoundedExact(0, n);
    AtIsProduct(0, n);
    RoundedExact(0, 1000);
  }

  lemma SamplePrinted(n: nat, longer: nat, count: nat, width: nat)
    requires n > 0 && longer <= n && count <= n && width >= 1 && (longer > 0 ==> width >= 2)
    ensures PrintedOf(SampleInterval(n, longer, count, width), Sample(n, longer, count))
  {
    var i, drafts := SampleInterval(n, longer, count, width), Sample(n, longer, count);
    SampleProposed(n, longer, count);
    SampleAccepted(n, longer, count);
    forall k | 0 <= k < width ensures i.rates[k] == PrintedRate(AcceptedAt(drafts, k), n) {
      SampleAcceptedAt(n, longer, count, k);
      ZeroPrinted(n);
    }
    SampleProper(n, longer, count, width);
  }

  lemma {:induction false} PaddedSum(counts: seq<nat>)
    requires counts != [] && forall k :: 1 <= k < |counts| ==> counts[k] == 0
    ensures Sum(counts) == counts[0]
  {
    var front := counts[..|counts| - 1];
    if |counts| > 1 {
      PaddedSum(front);
    } else {
      assert front == [];
    }
  }

  /** A count fits a sample's figures exactly when it gives back its one rate, its accepted tokens and its mean. */
  lemma SampleFits(i: Interval, rate: nat, width: nat, m: nat)
    requires width >= 1 && m > 0 && i.rates == Padded(rate, width)
    ensures Fits(i, m) <==>
            CountFrom(rate, m) == i.accepted && PrintedRate(i.accepted, m) == rate &&
            (i.mean.Some? ==> PrintedMean(i.accepted, m) == i.mean.value)
  {
    ZeroPrinted(m);
    var counts := Counts(i.rates, m);
    PaddedSum(counts);
    assert counts[0] == CountFrom(rate, m) && i.rates[0] == rate;
  }

  /** Past a thousand drafted tokens, drafts of one token each can miss their own count. */
  lemma LostCount(drafted: nat, width: nat) returns (i: Interval, drafts: seq<Draft>)
    requires drafted > 1000 && width >= 1
    ensures PrintedOf(i, drafts) && i.drafted == drafted && |i.rates| == width && |drafts| !in MatchesOf(i)
  {
    CountsRecoverableUpToThousand(drafted);
    var count :| 0 <= count <= drafted && CountFrom(PrintedRate(count, drafted), drafted) != count;
    i, drafts := SampleInterval(drafted, 0, count, width), Sample(drafted, 0, count);
    SamplePrinted(drafted, 0, count, width);
    SampleFits(i, PrintedRate(count, drafted), width, drafted);
    MatchesFit(i, Least(i), i.drafted + 1, drafted);
  }

  /** Every interval of so many drafted tokens and printed positions has its true draft count among the matches. */
  ghost predicate TrueCountsMatch(drafted: nat, width: nat) {
    forall i: Interval, drafts: seq<Draft> ::
      PrintedOf(i, drafts) && i.drafted == drafted && |i.rates| == width ==> |drafts| in MatchesOf(i)
  }

  /** The search always finds the true draft count exactly for up to a thousand drafted tokens, or without rates. */
  lemma TrueCountsMatchIff(drafted: nat, width: nat)
    ensures TrueCountsMatch(drafted, width) <==> drafted <= 1000 || width == 0
  {
    if drafted <= 1000 || width == 0 {
      forall i: Interval, drafts: seq<Draft> | PrintedOf(i, drafts) && i.drafted == drafted && |i.rates| == width
        ensures |drafts| in MatchesOf(i)
      {
        var counts := PositionCounts(drafts, width);
        PrintedOfDrafts(i, drafts);
        if width == 0 {
          NoRatesMatch(i, |drafts|, counts);
        } else {
          TrueDraftsMatch(i, |drafts|, counts);
        }
      }
    } else {
      var i, drafts := LostCount(drafted, width);
    }
  }

  // ----- When an exact answer is the true count

  /** Half a draft count in thousandths stands for an even count, or for exactly half of it. */
  lemma HalfCounts(m: nat)
    ensures CountFrom(500, m) % 2 == 0 || m == 2 * CountFrom(500, m)
    ensures m % 2 == 0 ==> CountFrom(500, m) == m / 2
  {
    var k := m / 2;
    AtIsProduct(500, m);
    AtIsProduct(k, 1000);
    if m % 2 == 0 {
      RoundedExact(k, 1000);
    } else {
      assert At(500, m) == At(k, 1000) + 500;
      QuotientShift(500, k, 1000);
    }
  }

  /** What is printed when `count` of 2 count - 1 drafts had a token accepted, and of 2 count drafts. */
  lemma HalfPrinted(count: nat)
    requires count >= 501
    ensures PrintedRate(count, 2 * count - 1) == PrintedRate(count, 2 * count) == 500
    ensures PrintedMean(count, 2 * count - 1) == PrintedMean(count, 2 * count) == 150
  {
    var n := 2 * count - 1;
    AtIsProduct(500, n);
    AtIsProduct(500, 2 * count);
    AtIsProduct(150, n);
    AtIsProduct(150, 2 * count);
    NearIsRounded(500, 1000 * count, n);
    NearIsRounded(500, 1000 * count, 2 * count);
    NearIsRounded(150, 100 * (n + count), n);
    NearIsRounded(150, 100 * (2 * count + count), 2 * count);
  }

  lemma OnlyMatch(matches: seq<nat>, m: nat)
    requires m in matches && Rising(matches) && forall x :: x in matches ==> x == m
    ensures matches == [m]
  {
    if |matches| > 1 {
      AnotherMatch(matches, m);
    }
  }

  lemma AnotherMatch(matches: seq<nat>, m: nat)
    requires Rising(matches) && |matches| > 1
    ensures exists x :: x in matches && x != m
  {
    assert matches[0] in matches && matches[1] in matches && matches[0] < matches[1];
  }

  /**
   * An odd number of accepted tokens, each of its own draft, out of twice that number of drafts less one: the one
   * count that fits the printed figures is one too many, and the answer says it is exact.
   */
  lemma WrongExactAnswer(count: nat, longer: nat, width: nat)
    requires count >= 501 && count % 2 == 1 && 1 <= longer < 2 * count && width >= 2
    ensures var n := 2 * count - 1;
      var i := SampleInterval(n, longer, count, width);
      PrintedOf(i, Sample(n, longer, count)) && i.drafted == n + longer && RecoveredOf(i) == Exact(n + 1)
  {
    var n := 2 * count - 1;
    var i := SampleInterval(n, longer, count, width);
    SamplePrinted(n, longer, count, width);
    PrintedOfDrafts(i, Sample(n, longer, count));
    LeastIsLeast(i, n);
    forall m: nat | m > 0 ensures Fits(i, m) <==> m == n + 1 {
      OneTooMany(count, longer, width, m);
    }
    OnlyFitIsExact(i, n + 1);
  }

  /** The one count in range that fits is answered as exact. */
  lemma OnlyFitIsExact(i: Interval, m: nat)
    requires i.drafted > 0 && Least(i) <= m <= i.drafted
    requires forall k: nat :: k > 0 ==> (Fits(i, k) <==> k == m)
    ensures RecoveredOf(i) == Exact(m)
  {
    forall k: nat ensures k in MatchesOf(i) <==> k == m {
      MatchesFit(i, Least(i), i.drafted + 1, k);
    }
    MatchesRise(i, Least(i), i.drafted + 1);
    OnlyMatch(MatchesOf(i), m);
  }

  /** Only one draft too many fits. */
  lemma OneTooMany(count: nat, longer: nat, width: nat, m: nat)
    requires count >= 501 && count % 2 == 1 && width >= 2 && m > 0
    ensures Fits(SampleInterval(2 * count - 1, longer, count, width), m) <==> m == 2 * count
  {
    HalfPrinted(count);
    HalfCounts(m);
    SampleFits(SampleInterval(2 * count - 1, longer, count, width), 500, width, m);
  }

  /** The smallest of them: 1001 drafts of 1002 tokens, 501 accepted, over two positions; the answer is exactly 1002. */
  lemma SmallestWrongAnswer(i: Interval)
    requires i == Interval(Some(150), 501, 1002, [500, 0])
    ensures RecoveredOf(i) == Exact(1002) && exists drafts :: |drafts| == 1001 && PrintedOf(i, drafts)
  {
    HalfPrinted(i.accepted);
    WrongExactAnswer(i.accepted, 1, |i.rates|);
    assert i == SampleInterval(2 * i.accepted - 1, 1, i.accepted, |i.rates|);
    assert PrintedOf(i, Sample(2 * i.accepted - 1, 1, i.accepted));
  }

  /** At 1001 drafts a printed rate never stands for more than its count. */
  lemma NeverMore(count: nat, n: nat)
    requires n == 1001 && count <= n
    ensures CountFrom(PrintedRate(count, n), n) <= count
  {
    var rate := PrintedRate(count, n);
    RoundedIsNear(1000 * count, n);
    AtIsProduct(rate, n);
    RoundedUp(At(rate, n), count);
    if At(rate, n) == 1000 * count + 500 {
      OnlyTie(rate, count);
    }
  }

  /** Below half a unit past a count, or half a unit past an even one, rounding does not pass the count. */
  lemma RoundedUp(total: nat, count: nat)
    requires total <= 1000 * count + 500
    ensures Rounded(total, 1000) <= count || (total == 1000 * count + 500 && count % 2 == 1)
  {
    Divided(total, 1000);
    AtIsProduct(Quotient(total, 1000), 1000);
  }

  lemma OnlyTie(rate: nat, count: nat)
    requires 1001 * rate == 1000 * count + 500 && count <= 1001
    ensures count == 500
  {
    var more := rate - count;
    assert 1000 * more + rate == 500;
  }

  /** A rate stands for no more accepted tokens of fewer drafts. */
  lemma CountsRise(rate: nat, m: nat, n: nat)
    requires m <= n
    ensures CountFrom(rate, m) <= CountFrom(rate, n)
  {
    AtIsProduct(rate, m);
    AtIsProduct(rate, n);
    MulOrder(rate, m, n);
    RoundedMonotone(At(rate, m), At(rate, n), 1000);
  }

  lemma {:induction false} SumsOrdered(a: seq<nat>, b: seq<nat>)
    requires |a| == |b| && forall k :: 0 <= k < |a| ==> a[k] <= b[k]
    ensures Sum(a) <= Sum(b)
    ensures Sum(a) == Sum(b) ==> a == b
  {
    if a != [] {
      var n := |a| - 1;
      SumsOrdered(a[..n], b[..n]);
      assert a == a[..n] + [a[n]] && b == b[..n] + [b[n]];
    }
  }

  /** At 1001 drafted tokens 1001 drafts either match or nothing does. */
  lemma AllOrNothing(i: Interval, n: nat, counts: seq<nat>)
    requires PrintedFor(i, n, counts) && i.drafted == n == 1001 && forall k :: 0 <= k < |counts| ==> counts[k] <= n
    ensures n in MatchesOf(i) || MatchesOf(i) == []
  {
    LeastIsLeast(i, n);
    var recovered := Counts(i.rates, n);
    forall k | 0 <= k < |counts| ensures recovered[k] <= counts[k] {
      NeverMore(counts[k], n);
    }
    SumsOrdered(recovered, counts);
    MatchesFit(i, Least(i), i.drafted + 1, n);
    if recovered != counts && MatchesOf(i) != [] {
      var m := MatchesOf(i)[0];
      MatchesFit(i, Least(i), i.drafted + 1, m);
      forall k | 0 <= k < |counts| ensures Counts(i.rates, m)[k] <= recovered[k] {
        CountsRise(i.rates[k], m, n);
      }
      SumsOrdered(Counts(i.rates, m), recovered);
      assert false;
    }
  }

  /** Every exact answer on an interval of so many drafted tokens and printed positions is the true draft count. */
  ghost predicate ExactAnswersRight(drafted: nat, width: nat) {
    forall i: Interval, drafts: seq<Draft> ::
      PrintedOf(i, drafts) && i.drafted == drafted && |i.rates| == width && RecoveredOf(i).Exact? ==>
        RecoveredOf(i).drafts == |drafts|
  }

  lemma ExactAnswerRight(i: Interval, drafts: seq<Draft>)
    requires PrintedOf(i, drafts) && RecoveredOf(i).Exact? && (i.drafted <= 1001 || |i.rates| <= 1)
    ensures RecoveredOf(i).drafts == |drafts|
  {
    var n, counts := |drafts|, PositionCounts(drafts, |i.rates|);
    PrintedOfDrafts(i, drafts);
    if |i.rates| == 0 {
      NoRatesMatch(i, n, counts);
    } else if n <= 1000 {
      TrueDraftsMatch(i, n, counts);
    } else if |i.rates| == 1 {
      AtIsProduct(n, 1);
      MatchesFit(i, Least(i), i.drafted + 1, RecoveredOf(i).drafts);
      LeastOfOne(i);
    } else {
      AllOrNothing(i, n, counts);
    }
  }

  lemma LeastOfOne(i: Interval)
    requires i.drafted > 0 && |i.rates| == 1
    ensures Least(i) == i.drafted
  {
    QuotientIsDivision(i.drafted, 1);
  }

  /** Drafted tokens past 1001 over two positions or more admit a wrong exact answer. */
  lemma WrongAnswerExists(drafted: nat, width: nat) returns (i: Interval, drafts: seq<Draft>)
    requires drafted > 1001 && width >= 2
    ensures PrintedOf(i, drafts) && i.drafted == drafted && |i.rates| == width
    ensures RecoveredOf(i).Exact? && RecoveredOf(i).drafts != |drafts|
  {
    var half := (drafted - 2) / 4;
    var n, count := 4 * half + 1, 2 * half + 1;
    assert half >= 250 && 1 <= drafted - n <= 4;
    WrongExactAnswer(count, drafted - n, width);
    i, drafts := SampleInterval(n, drafted - n, count, width), Sample(n, drafted - n, count);
  }

  /**
   * Exact answers are always right for up to 1001 drafted tokens or at most one printed position; past that, and
   * exactly then, some exact answer is wrong.
   */
  lemma ExactAnswersRightIff(drafted: nat, width: nat)
    ensures ExactAnswersRight(drafted, width) <==> drafted <= 1001 || width <= 1
  {
    if drafted <= 1001 || width <= 1 {
      forall i: Interval, drafts: seq<Draft> |
        PrintedOf(i, drafts) && i.drafted == drafted && |i.rates| == width && RecoveredOf(i).Exact?
        ensures RecoveredOf(i).drafts == |drafts|
      {
        ExactAnswerRight(i, drafts);
      }
    } else {
      var i, drafts := WrongAnswerExists(drafted, width);
    }
  }
}
