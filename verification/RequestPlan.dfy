/**
 * The request capture plan (scripts/ci/attention_request_plan.py) with the width rules of
 * scripts/ci/verifier_engine.py, lines 118-148.
 */
module RequestPlan {
  import opened Arithmetic
  import opened ChunkGroups
  import opened HeadFold
  import opened Results

  /** A captured verification width; wide captures belong to one 256-position mask family. */
  datatype Capture = Capture(rows: nat, position: int, capacity: Option<int>)

  datatype ReplayPlan = ReplayPlan(start: int, stop: int, captures: seq<Capture>)

  const VERIFY_WIDTHS: seq<nat> := [1, 2, 4, 8, 16, 32, 64]

  function Min(a: int, b: int): int { if a < b then a else b }

  function Max(a: int, b: int): int { if a < b then b else a }

  // ----- capture_widths

  /** The supported widths up to a limit. */
  function WidthsUpTo(limit: int, n: nat): (widths: seq<nat>)
    requires n <= |VERIFY_WIDTHS|
    ensures forall w :: w in widths <==> w in VERIFY_WIDTHS[..n] && w <= limit
  {
    if n == 0 then [] else
      WidthsUpTo(limit, n - 1) + if VERIFY_WIDTHS[n - 1] <= limit then [VERIFY_WIDTHS[n - 1]] else []
  }

  predicate Increasing(widths: seq<nat>) {
    forall i, j :: 0 <= i < j < |widths| ==> widths[i] < widths[j]
  }

  lemma {:induction false} WidthsIncrease(limit: int, n: nat)
    requires n <= |VERIFY_WIDTHS|
    ensures Increasing(WidthsUpTo(limit, n))
  {
    if n > 0 {
      WidthsIncrease(limit, n - 1);
      var front := WidthsUpTo(limit, n - 1);
      forall i | 0 <= i < |front| ensures front[i] < VERIFY_WIDTHS[n - 1] {
        assert front[i] in VERIFY_WIDTHS[..n - 1];
        TableIncreases(n);
      }
    }
  }

  lemma TableIncreases(n: nat)
    requires 0 < n <= |VERIFY_WIDTHS|
    ensures forall i :: 0 <= i < n - 1 ==> VERIFY_WIDTHS[i] < VERIFY_WIDTHS[n - 1]
  {
    assert Increasing(VERIFY_WIDTHS);
  }

  function Widths(verifierRows: int, remaining: int, maxVerifyRows: int): seq<nat> {
    WidthsUpTo(Min(Min(verifierRows, remaining), maxVerifyRows), |VERIFY_WIDTHS|)
  }

  predicate WidthsAllowed(position: int, capacity: int, verifierRows: int, remaining: int, maxVerifyRows: int) {
    && (maxVerifyRows >= 0 && maxVerifyRows in VERIFY_WIDTHS)
    && position >= 0 && remaining >= 1 && position + remaining <= capacity && verifierRows in {16, 32, 64}
  }

  method CaptureWidths(position: int, capacity: int, verifierRows: int, remaining: int, maxVerifyRows: int)
    returns (r: Result<seq<nat>>)
    ensures r.Ok? <==> WidthsAllowed(position, capacity, verifierRows, remaining, maxVerifyRows)
    ensures r.Ok? ==> r.value == Widths(verifierRows, remaining, maxVerifyRows) && 1 in r.value && Increasing(r.value)
  {
    if maxVerifyRows < 0 || maxVerifyRows !in VERIFY_WIDTHS {
      return Raised;
    }
    if position < 0 || remaining < 1 || position + remaining > capacity || verifierRows !in {16, 32, 64} {
      return Raised;
    }
    var widths: seq<nat> := [];
    var limit := Min(Min(verifierRows, remaining), maxVerifyRows);
    for i := 0 to |VERIFY_WIDTHS|
      invariant widths == WidthsUpTo(limit, i)
    {
      if VERIFY_WIDTHS[i] <= limit {
        widths := widths + [VERIFY_WIDTHS[i]];
      }
    }
    assert VERIFY_WIDTHS[..|VERIFY_WIDTHS|][0] == 1;
    WidthsIncrease(limit, |VERIFY_WIDTHS|);
    r := Ok(widths);
  }

  // ----- capture_plan

  /** The budget's share of the family that ends at `capacity`. */
  function ShareFirst(position: int, capacity: int): int { Max(position, capacity - 256) }

  function ShareLast(stop: int, capacity: int): int { Min(stop, capacity) }

  /** Narrow widths have no family capture, and a width must fit the budget's share. */
  predicate Skipped(position: int, stop: int, capacity: int, rows: nat) {
    rows < 8 || ShareFirst(position, capacity) + rows > ShareLast(stop, capacity)
  }

  /** The captures of the first `n` widths in one family. */
  function FamilyCaptures(position: int, stop: int, capacity: int, widths: seq<nat>, n: nat): seq<Capture>
    requires n <= |widths|
  {
    if n == 0 then [] else
      FamilyCaptures(position, stop, capacity, widths, n - 1) +
      if Skipped(position, stop, capacity, widths[n - 1]) then []
      else [Capture(widths[n - 1], ShareFirst(position, capacity), Some(capacity))]
  }

  /** The captures of the first `n` widths that need no family. */
  function NarrowCaptures(position: int, widths: seq<nat>, n: nat): seq<Capture>
    requires n <= |widths|
  {
    if n == 0 then [] else
      NarrowCaptures(position, widths, n - 1) +
      if widths[n - 1] < 8 then [Capture(widths[n - 1], position, None)] else []
  }

  /** The captures of the first `n` families, family by family; the first family ends at `base`. */
  function Families(position: int, stop: int, widths: seq<nat>, base: int, n: nat): (families: seq<seq<Capture>>)
    ensures |families| == n
    ensures forall f :: 0 <= f < n ==>
              families[f] == FamilyCaptures(position, stop, base + 256 * f, widths, |widths|)
  {
    seq(n, (f: nat) => FamilyCaptures(position, stop, base + 256 * f, widths, |widths|))
  }

  /** The captures of the narrow widths and of the first `n` families. */
  function Captures(position: int, stop: int, widths: seq<nat>, base: int, n: nat): seq<Capture> {
    NarrowCaptures(position, widths, |widths|) + Flat(Families(position, stop, widths, base, n))
  }

  lemma CapturesExtend(position: int, stop: int, widths: seq<nat>, base: int, n: nat)
    ensures Captures(position, stop, widths, base, n + 1) ==
            Captures(position, stop, widths, base, n) + FamilyCaptures(position, stop, base + 256 * n, widths, |widths|)
  {
    var before, family := Families(position, stop, widths, base, n),
        FamilyCaptures(position, stop, base + 256 * n, widths, |widths|);
    assert Families(position, stop, widths, base, n + 1) == before + [family];
    FlatAppend(before, family);
  }

  /** Where the family of a position ends. */
  function FamilyEnd(position: int): int { (position / 256 + 1) * 256 }

  /** The families a budget touches. */
  function FamilyCount(position: int, stop: int): (n: nat)
    requires position < stop
    ensures FamilyEnd(position) + 256 * (n - 1) == FamilyEnd(stop - 1)
  {
    (stop - 1) / 256 - position / 256 + 1
  }

  /** The ticket check of the first `n` widths of one family. */
  predicate FamilyValid(ladder: Ladder, short: bool, position: int, stop: int, capacity: int, widths: seq<nat>, n: nat)
    requires n <= |widths|
  {
    forall i :: 0 <= i < n && !Skipped(position, stop, capacity, widths[i]) ==>
      ValidTicket(ladder, ShareFirst(position, capacity), widths[i], capacity, short)
  }

  predicate FamilyAdmitted(ladder: Ladder, short: bool, position: int, stop: int, widths: seq<nat>, base: int, f: nat) {
    FamilyValid(ladder, short, position, stop, base + 256 * f, widths, |widths|)
  }

  predicate FamiliesValid(ladder: Ladder, short: bool, position: int, stop: int, widths: seq<nat>, base: int, n: nat) {
    forall f :: 0 <= f < n ==> FamilyAdmitted(ladder, short, position, stop, widths, base, f)
  }

  /** The ticket check of every family a budget touches. */
  predicate BudgetAdmitted(ladder: Ladder, short: bool, position: int, stop: int, widths: seq<nat>)
    requires position < stop
  {
    FamiliesValid(ladder, short, position, stop, widths, FamilyEnd(position), FamilyCount(position, stop))
  }

  /** The captures of a whole budget. */
  function BudgetCaptures(position: int, stop: int, widths: seq<nat>): seq<Capture>
    requires position < stop
  {
    Captures(position, stop, widths, FamilyEnd(position), FamilyCount(position, stop))
  }

  /** When a capture plan exists. */
  predicate Plannable(ladder: Ladder, position: int, pageCapacity: int, verifierRows: int, remaining: int,
                      maxVerifyRows: int, short: bool)
  {
    && WidthsAllowed(position, pageCapacity, verifierRows, remaining, maxVerifyRows)
    && (short ==> maxVerifyRows == 8 && position >= 128 && position + remaining <= 768)
    && BudgetAdmitted(ladder, short, position, position + remaining, Widths(verifierRows, remaining, maxVerifyRows))
  }

  /** One family of the plan loop. */
  method PlanFamily(ladder: Ladder, position: int, stop: int, capacity: int, widths: seq<nat>, short: bool)
    returns (r: Result<seq<Capture>>)
    ensures r.Ok? <==> FamilyValid(ladder, short, position, stop, capacity, widths, |widths|)
    ensures r.Ok? ==> r.value == FamilyCaptures(position, stop, capacity, widths, |widths|)
  {
    var captures: seq<Capture> := [];
    var first, last := Max(position, capacity - 256), Min(stop, capacity);
    for i := 0 to |widths|
      invariant FamilyValid(ladder, short, position, stop, capacity, widths, i)
      invariant captures == FamilyCaptures(position, stop, capacity, widths, i)
    {
      if !(widths[i] < 8 || first + widths[i] > last) {
        assert !Skipped(position, stop, capacity, widths[i]);
        var valid := ValidateTicket(ladder, first, widths[i], capacity, short);
        if !valid {
          return Raised;
        }
        captures := captures + [Capture(widths[i], first, Some(capacity))];
      }
    }
    r := Ok(captures);
  }

  /** No two captures share a width and a capacity. */
  predicate UniqueKeys(captures: seq<Capture>) {
    forall i, j :: 0 <= i < |captures| && 0 <= j < |captures| && i != j ==>
      captures[i].rows != captures[j].rows || captures[i].capacity != captures[j].capacity
  }

  lemma FamiliesExtend(ladder: Ladder, short: bool, position: int, stop: int, widths: seq<nat>, base: int, n: nat)
    requires FamiliesValid(ladder, short, position, stop, widths, base, n)
    ensures FamiliesValid(ladder, short, position, stop, widths, base, n + 1) <==>
            FamilyValid(ladder, short, position, stop, base + 256 * n, widths, |widths|)
  {
    assert FamilyAdmitted(ladder, short, position, stop, widths, base, n) <==>
           FamilyValid(ladder, short, position, stop, base + 256 * n, widths, |widths|);
  }

  lemma FamiliesFail(ladder: Ladder, short: bool, position: int, stop: int, widths: seq<nat>, base: int, n: nat,
                     count: nat)
    requires n < count && !FamilyValid(ladder, short, position, stop, base + 256 * n, widths, |widths|)
    ensures !FamiliesValid(ladder, short, position, stop, widths, base, count)
  {
    assert !FamilyAdmitted(ladder, short, position, stop, widths, base, n);
  }

  /** The plan loop: every capacity from the first family's to the last one's. */
  method PlanRange(ladder: Ladder, position: int, stop: int, widths: seq<nat>, short: bool, base: int, last: int,
                   ghost count: nat)
    returns (r: Result<seq<Capture>>)
    requires last == base + 256 * (count - 1)
    ensures r.Ok? <==> FamiliesValid(ladder, short, position, stop, widths, base, count)
    ensures r.Ok? ==> r.value == Captures(position, stop, widths, base, count)
  {
    var captures := NarrowCaptures(position, widths, |widths|);
    var capacity := base;
    ghost var n := 0;
    while capacity < last + 1
      invariant n <= count && capacity == base + 256 * n
      invariant FamiliesValid(ladder, short, position, stop, widths, base, n)
      invariant captures == Captures(position, stop, widths, base, n)
    {
      var family := PlanFamily(ladder, position, stop, capacity, widths, short);
      FamiliesExtend(ladder, short, position, stop, widths, base, n);
      if family.Raised? {
        FamiliesFail(ladder, short, position, stop, widths, base, n, count);
        return Raised;
      }
      CapturesExtend(position, stop, widths, base, n);
      captures := captures + family.value;
      capacity, n := capacity + 256, n + 1;
    }
    r := Ok(captures);
  }

  method PlanFamilies(ladder: Ladder, position: int, stop: int, widths: seq<nat>, short: bool)
    returns (r: Result<seq<Capture>>)
    requires position < stop
    ensures r.Ok? <==> BudgetAdmitted(ladder, short, position, stop, widths)
    ensures r.Ok? ==> r.value == BudgetCaptures(position, stop, widths)
  {
    var first, last := (position / 256 + 1) * 256, ((stop - 1) / 256 + 1) * 256;
    r := PlanRange(ladder, position, stop, widths, short, first, last, FamilyCount(position, stop));
  }

  /** `capture_plan`: its own check that keys are unique never fails. */
  method CapturePlan(ladder: Ladder, position: int, pageCapacity: int, verifierRows: int, remaining: int,
                     maxVerifyRows: int, short: bool) returns (r: Result<ReplayPlan>)
    ensures r.Ok? <==> Plannable(ladder, position, pageCapacity, verifierRows, remaining, maxVerifyRows, short)
    ensures r.Ok? ==> r.value == PlanOf(position, remaining, Widths(verifierRows, remaining, maxVerifyRows))
  {
    var widths := CaptureWidths(position, pageCapacity, verifierRows, remaining, maxVerifyRows);
    if widths.Raised? {
      return Raised;
    }
    var stop := position + remaining;
    if short && (maxVerifyRows != 8 || position < 128 || stop > 768) {
      return Raised;
    }
    r := PlanBudget(ladder, position, remaining, widths.value, short);
  }

  method PlanBudget(ladder: Ladder, position: int, remaining: int, widths: seq<nat>, short: bool)
    returns (r: Result<ReplayPlan>)
    requires remaining >= 1 && Increasing(widths)
    ensures r.Ok? <==> BudgetAdmitted(ladder, short, position, position + remaining, widths)
    ensures r.Ok? ==> r.value == PlanOf(position, remaining, widths)
  {
    var stop := position + remaining;
    var captures := PlanFamilies(ladder, position, stop, widths, short);
    if captures.Raised? {
      return Raised;
    }
    PlanKeysUnique(position, remaining, widths);
    if !UniqueKeys(captures.value) {
      return Raised;
    }
    r := Ok(ReplayPlan(position, stop, captures.value));
  }

  /** The plan of an allowed request. */
  function PlanOf(position: int, remaining: int, widths: seq<nat>): ReplayPlan
    requires remaining >= 1
  {
    var stop := position + remaining;
    ReplayPlan(position, stop, BudgetCaptures(position, stop, widths))
  }

  // ----- What the plan holds

  /** The captures a plan wants: narrow widths once, wide widths once for each family whose share holds them. */
  predicate Wanted(position: int, stop: int, widths: seq<nat>, base: int, n: nat, c: Capture) {
    && c.rows in widths
    && match c.capacity
       case None => c.rows < 8 && c.position == position
       case Some(capacity) =>
         && InFamilies(base, n, capacity)
         && c.position == ShareFirst(position, capacity) && !Skipped(position, stop, capacity, c.rows)
  }

  lemma {:induction false} NarrowHolds(position: int, widths: seq<nat>, n: nat, c: Capture)
    requires n <= |widths|
    ensures c in NarrowCaptures(position, widths, n) <==>
            c.rows in widths[..n] && c.rows < 8 && c.position == position && c.capacity == None
  {
    if n > 0 {
      NarrowHolds(position, widths, n - 1, c);
      assert widths[..n] == widths[..n - 1] + [widths[n - 1]];
    }
  }

  lemma {:induction false} FamilyHolds(position: int, stop: int, capacity: int, widths: seq<nat>, n: nat, c: Capture)
    requires n <= |widths|
    ensures c in FamilyCaptures(position, stop, capacity, widths, n) <==>
            c.rows in widths[..n] && !Skipped(position, stop, capacity, c.rows) &&
            c.position == ShareFirst(position, capacity) && c.capacity == Some(capacity)
  {
    if n > 0 {
      FamilyHolds(position, stop, capacity, widths, n - 1, c);
      assert widths[..n] == widths[..n - 1] + [widths[n - 1]];
    }
  }

  /** Capacity `capacity` is that of one of the first `n` families. */
  predicate InFamilies(base: int, n: nat, capacity: int) {
    n > 0 && (capacity == base + 256 * (n - 1) || InFamilies(base, n - 1, capacity))
  }

  lemma {:induction false} FamilyInRange(base: int, n: nat, f: nat)
    ensures InFamilies(base, n, base + 256 * f) <==> f < n
  {
    if n > 0 {
      FamilyInRange(base, n - 1, f);
    }
  }

  /** `family` holds the captures wanted of the family that ends at `capacity`. */
  ghost predicate FamilyWanted(position: int, stop: int, widths: seq<nat>, capacity: int, family: seq<Capture>,
                               c: Capture) {
    c in family <==> c.rows in widths && !Skipped(position, stop, capacity, c.rows) &&
                     c.position == ShareFirst(position, capacity) && c.capacity == Some(capacity)
  }

  lemma {:induction false} FamiliesWanted(position: int, stop: int, widths: seq<nat>, base: int,
                                          families: seq<seq<Capture>>, c: Capture)
    requires forall f :: 0 <= f < |families| ==> FamilyWanted(position, stop, widths, base + 256 * f, families[f], c)
    ensures c in Flat(families) <==> c.capacity.Some? && Wanted(position, stop, widths, base, |families|, c)
  {
    if families != [] {
      var n := |families| - 1;
      FamiliesWanted(position, stop, widths, base, families[..n], c);
      FlatExtend(families, n);
      assert families[..n + 1] == families;
      assert FamilyWanted(position, stop, widths, base + 256 * n, families[n], c);
    }
  }

  /** A plan holds exactly the wanted captures. */
  lemma CapturesWanted(position: int, stop: int, widths: seq<nat>, base: int, n: nat, c: Capture)
    ensures c in Captures(position, stop, widths, base, n) <==> Wanted(position, stop, widths, base, n, c)
  {
    assert widths[..|widths|] == widths;
    NarrowHolds(position, widths, |widths|, c);
    var families := Families(position, stop, widths, base, n);
    forall f | 0 <= f < n ensures FamilyWanted(position, stop, widths, base + 256 * f, families[f], c) {
      FamilyHolds(position, stop, base + 256 * f, widths, |widths|, c);
    }
    FamiliesWanted(position, stop, widths, base, families, c);
  }

  lemma UniqueJoined(a: seq<Capture>, b: seq<Capture>)
    requires UniqueKeys(a) && UniqueKeys(b)
    requires forall i, j :: 0 <= i < |a| && 0 <= j < |b| ==> a[i].rows != b[j].rows || a[i].capacity != b[j].capacity
    ensures UniqueKeys(a + b)
  {
  }

  lemma {:induction false} NarrowUnique(position: int, widths: seq<nat>, n: nat)
    requires n <= |widths| && Increasing(widths)
    ensures UniqueKeys(NarrowCaptures(position, widths, n))
  {
    if n > 0 {
      NarrowUnique(position, widths, n - 1);
      var front := NarrowCaptures(position, widths, n - 1);
      forall i | 0 <= i < |front| ensures front[i].rows < widths[n - 1] {
        NarrowHolds(position, widths, n - 1, front[i]);
      }
    }
  }

  lemma {:induction false} FamilyUnique(position: int, stop: int, capacity: int, widths: seq<nat>, n: nat)
    requires n <= |widths| && Increasing(widths)
    ensures UniqueKeys(FamilyCaptures(position, stop, capacity, widths, n))
  {
    if n > 0 {
      FamilyUnique(position, stop, capacity, widths, n - 1);
      var front := FamilyCaptures(position, stop, capacity, widths, n - 1);
      forall i | 0 <= i < |front| ensures front[i].rows < widths[n - 1] {
        FamilyHolds(position, stop, capacity, widths, n - 1, front[i]);
      }
    }
  }

  /** Keys are unique whenever the widths are distinct. */
  lemma {:induction false} CapturesUnique(position: int, stop: int, widths: seq<nat>, base: int, n: nat)
    requires Increasing(widths)
    ensures UniqueKeys(Captures(position, stop, widths, base, n))
  {
    if n == 0 {
      NarrowUnique(position, widths, |widths|);
      assert Captures(position, stop, widths, base, 0) == NarrowCaptures(position, widths, |widths|);
    } else {
      CapturesUnique(position, stop, widths, base, n - 1);
      FamilyUnique(position, stop, base + 256 * (n - 1), widths, |widths|);
      var a := Captures(position, stop, widths, base, n - 1);
      var b := FamilyCaptures(position, stop, base + 256 * (n - 1), widths, |widths|);
      forall i, j | 0 <= i < |a| && 0 <= j < |b| ensures a[i].capacity != b[j].capacity {
        NewFamily(position, stop, widths, base, n - 1, a[i], b[j]);
      }
      UniqueJoined(a, b);
      CapturesExtend(position, stop, widths, base, n - 1);
    }
  }

  lemma NewFamily(position: int, stop: int, widths: seq<nat>, base: int, n: nat, c: Capture, d: Capture)
    requires c in Captures(position, stop, widths, base, n)
    requires d in FamilyCaptures(position, stop, base + 256 * n, widths, |widths|)
    ensures c.capacity != d.capacity
  {
    CapturesWanted(position, stop, widths, base, n, c);
    FamilyHolds(position, stop, base + 256 * n, widths, |widths|, d);
    FamilyInRange(base, n, n);
  }

  lemma PlanKeysUnique(position: int, remaining: int, widths: seq<nat>)
    requires remaining >= 1 && Increasing(widths)
    ensures UniqueKeys(PlanOf(position, remaining, widths).captures)
  {
    CapturesUnique(position, position + remaining, widths, FamilyEnd(position),
                   FamilyCount(position, position + remaining));
  }

  // ----- ReplayPlan

  /** The captures usable for a ticket at `position` with `remaining` tokens left. */
  predicate Usable(position: int, remaining: int, c: Capture) {
    c.rows <= remaining && match c.capacity
                           case None => true
                           case Some(capacity) =>
                             capacity == FamilyEnd(position) && position + c.rows <= FamilyEnd(position)
  }

  predicate InBudget(plan: ReplayPlan, position: int, remaining: int) {
    plan.start <= position < plan.stop && 1 <= remaining <= plan.stop - position
  }

  /** The usable captures among the first `n`, in order. */
  function UsableOf(captures: seq<Capture>, n: nat, position: int, remaining: int): seq<Capture>
    requires n <= |captures|
  {
    if n == 0 then [] else
      UsableOf(captures, n - 1, position, remaining) +
      if Usable(position, remaining, captures[n - 1]) then [captures[n - 1]] else []
  }

  /** The captures of one width among the first `n`, in order. */
  function OfWidth(captures: seq<Capture>, n: nat, rows: int): seq<Capture>
    requires n <= |captures|
  {
    if n == 0 then []
    else OfWidth(captures, n - 1, rows) + if captures[n - 1].rows == rows then [captures[n - 1]] else []
  }

  function AvailableOf(plan: ReplayPlan, position: int, remaining: int): Result<seq<Capture>> {
    if InBudget(plan, position, remaining) then Ok(UsableOf(plan.captures, |plan.captures|, position, remaining))
    else Raised
  }

  function Selected(plan: ReplayPlan, position: int, rows: int, remaining: int): Result<Capture> {
    var usable := AvailableOf(plan, position, remaining);
    if usable.Raised? then Raised
    else
      var matches := OfWidth(usable.value, |usable.value|, rows);
      if |matches| != 1 then Raised else Ok(matches[0])
  }

  method Available(plan: ReplayPlan, position: int, remaining: int) returns (r: Result<seq<Capture>>)
    ensures r == AvailableOf(plan, position, remaining)
  {
    if !(plan.start <= position < plan.stop) || !(1 <= remaining <= plan.stop - position) {
      return Raised;
    }
    var usable: seq<Capture> := [];
    for i := 0 to |plan.captures|
      invariant usable == UsableOf(plan.captures, i, position, remaining)
    {
      if Usable(position, remaining, plan.captures[i]) {
        usable := usable + [plan.captures[i]];
      }
    }
    r := Ok(usable);
  }

  /** The single usable capture of a width, or an error when there is none or more than one. */
  method Select(plan: ReplayPlan, position: int, rows: int, remaining: int) returns (r: Result<Capture>)
    ensures r == Selected(plan, position, rows, remaining)
  {
    var usable := Available(plan, position, remaining);
    if usable.Raised? {
      return Raised;
    }
    var matches: seq<Capture> := [];
    for i := 0 to |usable.value|
      invariant matches == OfWidth(usable.value, i, rows)
    {
      if usable.value[i].rows == rows {
        matches := matches + [usable.value[i]];
      }
    }
    r := if |matches| != 1 then Raised else Ok(matches[0]);
  }

  lemma {:induction false} UsableHolds(captures: seq<Capture>, n: nat, position: int, remaining: int, c: Capture)
    requires n <= |captures|
    ensures c in UsableOf(captures, n, position, remaining) <==> c in captures[..n] && Usable(position, remaining, c)
  {
    if n > 0 {
      UsableHolds(captures, n - 1, position, remaining, c);
      assert captures[..n] == captures[..n - 1] + [captures[n - 1]];
    }
  }

  lemma {:induction false} OfWidthHolds(captures: seq<Capture>, n: nat, rows: int, c: Capture)
    requires n <= |captures|
    ensures c in OfWidth(captures, n, rows) <==> c in captures[..n] && c.rows == rows
  {
    if n > 0 {
      OfWidthHolds(captures, n - 1, rows, c);
      assert captures[..n] == captures[..n - 1] + [captures[n - 1]];
    }
  }

  lemma PrefixUnique(captures: seq<Capture>, n: nat)
    requires n < |captures| && UniqueKeys(captures)
    ensures UniqueKeys(captures[..n])
    ensures forall c :: c in captures[..n] ==> c.rows != captures[n].rows || c.capacity != captures[n].capacity
  {
  }

  lemma {:induction false} UsableUnique(captures: seq<Capture>, n: nat, position: int, remaining: int)
    requires n <= |captures| && UniqueKeys(captures)
    ensures UniqueKeys(UsableOf(captures, n, position, remaining))
  {
    if n > 0 {
      UsableUnique(captures, n - 1, position, remaining);
      PrefixUnique(captures, n - 1);
      var front := UsableOf(captures, n - 1, position, remaining);
      forall i | 0 <= i < |front| ensures front[i] in captures[..n - 1] {
        UsableHolds(captures, n - 1, position, remaining, front[i]);
      }
    }
  }

  lemma {:induction false} OfWidthUnique(captures: seq<Capture>, n: nat, rows: int)
    requires n <= |captures| && UniqueKeys(captures)
    ensures UniqueKeys(OfWidth(captures, n, rows))
  {
    if n > 0 {
      OfWidthUnique(captures, n - 1, rows);
      PrefixUnique(captures, n - 1);
      var front := OfWidth(captures, n - 1, rows);
      forall i | 0 <= i < |front| ensures front[i] in captures[..n - 1] {
        OfWidthHolds(captures, n - 1, rows, front[i]);
      }
    }
  }

  /** A duplicate-free list whose members are all `c` has one entry if it holds `c` and none otherwise. */
  lemma OnlyMember(matches: seq<Capture>, c: Capture)
    requires UniqueKeys(matches) && forall m :: m in matches ==> m == c
    ensures |matches| == if c in matches then 1 else 0
  {
    forall i | 0 <= i < |matches| ensures matches[i] == c {
      assert matches[i] in matches;
    }
    assert |matches| > 1 ==> matches[0] == matches[1];
    if |matches| > 0 {
      assert matches[0] in matches;
    }
  }

  /** The captures `select` chooses from. */
  lemma SelectedMember(plan: ReplayPlan, position: int, rows: int, remaining: int, c: Capture)
    requires UniqueKeys(plan.captures) && InBudget(plan, position, remaining)
    requires forall d :: d in plan.captures && Usable(position, remaining, d) && d.rows == rows ==> d == c
    ensures Selected(plan, position, rows, remaining) ==
            if c in plan.captures && Usable(position, remaining, c) && c.rows == rows then Ok(c) else Raised
  {
    var n := |plan.captures|;
    var usable := UsableOf(plan.captures, n, position, remaining);
    UsableUnique(plan.captures, n, position, remaining);
    OfWidthUnique(usable, |usable|, rows);
    var matches := OfWidth(usable, |usable|, rows);
    assert plan.captures[..n] == plan.captures && usable[..|usable|] == usable;
    forall d ensures d in matches <==> d in plan.captures && Usable(position, remaining, d) && d.rows == rows {
      UsableHolds(plan.captures, n, position, remaining, d);
      OfWidthHolds(usable, |usable|, rows, d);
    }
    OnlyMember(matches, c);
  }

  /** The tickets a plan offers a capture for: in the budget, of an offered width, wide ones inside one family. */
  predicate Offered(position: int, rows: int, remaining: int, widths: seq<nat>) {
    rows >= 0 && rows in widths && rows <= remaining && (rows >= 8 ==> position + rows <= FamilyEnd(position))
  }

  /** The capture a plan has for an offered ticket. */
  function CaptureFor(start: int, position: int, rows: nat): Capture {
    if rows < 8 then Capture(rows, start, None)
    else Capture(rows, ShareFirst(start, FamilyEnd(position)), Some(FamilyEnd(position)))
  }

  lemma FamilyInside(start: int, stop: int, position: int)
    requires start <= position < stop
    ensures InFamilies(FamilyEnd(start), FamilyCount(start, stop), FamilyEnd(position))
  {
    FamilyInRange(FamilyEnd(start), FamilyCount(start, stop), position / 256 - start / 256);
  }

  lemma UsableIsCaptureFor(start: int, stop: int, widths: seq<nat>, position: int, remaining: int, c: Capture)
    requires start <= position < stop && 1 <= remaining <= stop - position
    ensures Wanted(start, stop, widths, FamilyEnd(start), FamilyCount(start, stop), c) &&
              Usable(position, remaining, c) <==>
            Offered(position, c.rows, remaining, widths) && c == CaptureFor(start, position, c.rows)
  {
    FamilyInside(start, stop, position);
    if c.rows >= 8 && position + c.rows <= FamilyEnd(position) && c.rows <= remaining {
      assert !Skipped(start, stop, FamilyEnd(position), c.rows);
    }
  }

  /**
   * `select` succeeds for exactly the in-budget tickets of an offered width that, from eight tokens on, fit their
   * 256-position family, and then gives the one capture of that width and family.
   */
  lemma SelectServesOfferedTickets(start: int, budget: int, widths: seq<nat>, position: int, rows: int, remaining: int)
    requires budget >= 1 && Increasing(widths)
    ensures var plan := PlanOf(start, budget, widths);
      Selected(plan, position, rows, remaining) ==
      if InBudget(plan, position, remaining) && Offered(position, rows, remaining, widths)
      then Ok(CaptureFor(start, position, rows)) else Raised
  {
    var plan, stop := PlanOf(start, budget, widths), start + budget;
    PlanKeysUnique(start, budget, widths);
    if InBudget(plan, position, remaining) {
      var c := if rows >= 0 then CaptureFor(start, position, rows) else Capture(0, 0, None);
      forall d: Capture
        ensures d in plan.captures && Usable(position, remaining, d) && d.rows == rows <==>
                Offered(position, rows, remaining, widths) && d.rows == rows && d == c
      {
        CapturesWanted(start, stop, widths, FamilyEnd(start), FamilyCount(start, stop), d);
        UsableIsCaptureFor(start, stop, widths, position, remaining, d);
      }
      SelectedMember(plan, position, rows, remaining, c);
    }
  }

  /** A capture with a mask family is admitted by the ticket check at the ticket's own position. */
  lemma SelectedTicketIsValid(ladder: Ladder, short: bool, start: int, budget: int, widths: seq<nat>, position: int,
                              rows: int,
                              remaining: int)
    requires budget >= 1 && Increasing(widths) && BudgetAdmitted(ladder, short, start, start + budget, widths)
    requires Selected(PlanOf(start, budget, widths), position, rows, remaining).Ok?
    ensures var c := Selected(PlanOf(start, budget, widths), position, rows, remaining).value;
      c.rows == rows && (c.capacity.Some? <==> rows >= 8) &&
      (c.capacity.Some? ==> ValidTicket(ladder, position, rows, c.capacity.value, short))
  {
    SelectServesOfferedTickets(start, budget, widths, position, rows, remaining);
    if rows >= 8 {
      CaptureAdmitsTicket(ladder, start, start + budget, widths, short, position, rows, remaining);
    }
  }

  /** The ticket check at the start of a family's share covers every ticket inside it. */
  lemma CaptureAdmitsTicket(ladder: Ladder, start: int, stop: int, widths: seq<nat>, short: bool, position: int,
                            rows: nat,
                            remaining: int)
    requires start <= position < stop && 1 <= remaining <= stop - position && rows >= 8
    requires Offered(position, rows, remaining, widths)
    requires BudgetAdmitted(ladder, short, start, stop, widths)
    ensures ValidTicket(ladder, position, rows, FamilyEnd(position), short)
  {
    var f := position / 256 - start / 256;
    FamilyInside(start, stop, position);
    assert FamilyEnd(position) == FamilyEnd(start) + 256 * f;
    assert FamilyAdmitted(ladder, short, start, stop, widths, FamilyEnd(start), f);
    assert !Skipped(start, stop, FamilyEnd(position), rows);
    assert ValidTicket(ladder, ShareFirst(start, FamilyEnd(position)), rows, FamilyEnd(position), short);
  }

  /** `max_rows` of a ticket in the budget: the widest usable capture. */
  method MaxRows(plan: ReplayPlan, position: int, remaining: int) returns (r: Result<nat>)
    ensures r.Ok? <==> InBudget(plan, position, remaining) && AvailableOf(plan, position, remaining).value != []
    ensures r.Ok? ==> exists c :: c in AvailableOf(plan, position, remaining).value && c.rows == r.value
    ensures r.Ok? ==> forall c :: c in AvailableOf(plan, position, remaining).value ==> c.rows <= r.value
  {
    var usable := Available(plan, position, remaining);
    if usable.Raised? || usable.value == [] {
      return Raised;
    }
    var widest := usable.value[0];
    for i := 0 to |usable.value|
      invariant widest in usable.value && forall j :: 0 <= j < i ==> usable.value[j].rows <= widest.rows
    {
      if usable.value[i].rows > widest.rows {
        widest := usable.value[i];
      }
    }
    r := Ok(widest.rows);
  }

  /** A prepared plan has a capture for every ticket in its budget, so `max_rows` never raises there. */
  lemma AlwaysOneToken(verifierRows: int, maxVerifyRows: int, start: int, budget: int, position: int, remaining: int)
    requires budget >= 1 && verifierRows in {16, 32, 64} && maxVerifyRows >= 1
    requires start <= position < start + budget && 1 <= remaining <= start + budget - position
    ensures var plan := PlanOf(start, budget, Widths(verifierRows, budget, maxVerifyRows));
      Selected(plan, position, 1, remaining).Ok? && AvailableOf(plan, position, remaining).value != []
  {
    var widths := Widths(verifierRows, budget, maxVerifyRows);
    assert VERIFY_WIDTHS[..|VERIFY_WIDTHS|][0] == 1;
    WidthsIncrease(Min(Min(verifierRows, budget), maxVerifyRows), |VERIFY_WIDTHS|);
    SelectServesOfferedTickets(start, budget, widths, position, 1, remaining);
  }

  /** Capture `k` is the only usable one of the width. */
  predicate OnlyUsable(captures: seq<Capture>, k: nat, position: int, rows: int, remaining: int)
    requires k < |captures|
  {
    && captures[k].rows == rows && Usable(position, remaining, captures[k])
    && forall j :: 0 <= j < |captures| && j != k && captures[j].rows == rows ==>
         !Usable(position, remaining, captures[j])
  }

  /** How often a width is usable among the first `n` captures. */
  lemma {:induction false} UsableOfWidth(captures: seq<Capture>, n: nat, position: int, rows: int, remaining: int)
    requires n <= |captures|
    ensures var usable := UsableOf(captures, n, position, remaining);
      OfWidth(usable, |usable|, rows) == BothOf(captures, n, position, rows, remaining)
  {
    if n > 0 {
      UsableOfWidth(captures, n - 1, position, rows, remaining);
      var before := UsableOf(captures, n - 1, position, remaining);
      if Usable(position, remaining, captures[n - 1]) {
        OfWidthAppend(before, captures[n - 1], rows);
      } else {
        assert UsableOf(captures, n, position, remaining) == before;
      }
    }
  }

  lemma OfWidthAppend(captures: seq<Capture>, c: Capture, rows: int)
    ensures OfWidth(captures + [c], |captures + [c]|, rows) ==
            OfWidth(captures, |captures|, rows) + if c.rows == rows then [c] else []
  {
    OfWidthConcat(captures, [c], 1, rows);
    assert OfWidth([c], 0, rows) == [];
  }

  function BothOf(captures: seq<Capture>, n: nat, position: int, rows: int, remaining: int): seq<Capture>
    requires n <= |captures|
  {
    if n == 0 then []
    else
      BothOf(captures, n - 1, position, rows, remaining) +
      if captures[n - 1].rows == rows && Usable(position, remaining, captures[n - 1]) then [captures[n - 1]] else []
  }

  /** None of the first `n` captures of the width is usable. */
  predicate NoneUsable(captures: seq<Capture>, n: nat, position: int, rows: int, remaining: int)
    requires n <= |captures|
  {
    forall j :: 0 <= j < n && captures[j].rows == rows ==> !Usable(position, remaining, captures[j])
  }

  lemma {:induction false} BothCounted(captures: seq<Capture>, n: nat, position: int, rows: int, remaining: int)
    requires n <= |captures|
    ensures var both := BothOf(captures, n, position, rows, remaining);
      && (both == [] <==> NoneUsable(captures, n, position, rows, remaining))
      && (|both| == 1 <==> exists k :: 0 <= k < n && OnlyUsable(captures[..n], k, position, rows, remaining))
      && (|both| == 1 ==> exists k :: 0 <= k < n && OnlyUsable(captures[..n], k, position, rows, remaining)
                                      && both[0] == captures[k])
  {
    if n > 0 {
      var before := BothOf(captures, n - 1, position, rows, remaining);
      BothCounted(captures, n - 1, position, rows, remaining);
      if captures[n - 1].rows == rows && Usable(position, remaining, captures[n - 1]) {
        if before == [] {
          assert OnlyUsable(captures[..n], n - 1, position, rows, remaining);
        }
        if k :| 0 <= k < n && OnlyUsable(captures[..n], k, position, rows, remaining) {
          assert k == n - 1;
          forall j | 0 <= j < n - 1 && captures[j].rows == rows ensures !Usable(position, remaining, captures[j]) {
            assert captures[..n][j] == captures[j];
          }
        }
      } else {
        if k :| 0 <= k < n - 1 && OnlyUsable(captures[..n - 1], k, position, rows, remaining)
                && (|before| == 1 ==> before[0] == captures[k]) {
          OnlyStays(captures, n, k, position, rows, remaining);
        }
        if k :| 0 <= k < n && OnlyUsable(captures[..n], k, position, rows, remaining) {
          OnlyBefore(captures, n, k, position, rows, remaining);
        }
      }
    }
  }

  lemma OnlyStays(captures: seq<Capture>, n: nat, k: nat, position: int, rows: int, remaining: int)
    requires k < n - 1 < |captures| && OnlyUsable(captures[..n - 1], k, position, rows, remaining)
    requires captures[n - 1].rows != rows || !Usable(position, remaining, captures[n - 1])
    ensures OnlyUsable(captures[..n], k, position, rows, remaining)
  {
    forall j | 0 <= j < n && j != k && captures[..n][j].rows == rows
      ensures !Usable(position, remaining, captures[..n][j])
    {
      assert j < n - 1 ==> captures[..n - 1][j] == captures[..n][j];
    }
  }

  lemma OnlyBefore(captures: seq<Capture>, n: nat, k: nat, position: int, rows: int, remaining: int)
    requires k < n <= |captures| && OnlyUsable(captures[..n], k, position, rows, remaining)
    requires captures[n - 1].rows != rows || !Usable(position, remaining, captures[n - 1])
    ensures k < n - 1 && OnlyUsable(captures[..n - 1], k, position, rows, remaining)
  {
    var front := captures[..n - 1];
    forall j | 0 <= j < |front| && j != k && front[j].rows == rows ensures !Usable(position, remaining, front[j]) {
      assert front[j] == captures[..n][j];
    }
  }

  /**
   * Over every plan, with unique keys or not, a capture is selected exactly when the ticket is in the budget and the
   * capture is the only one of the width that can serve it.
   */
  lemma SelectedExactlyWhen(plan: ReplayPlan, position: int, rows: int, remaining: int)
    ensures var selected := Selected(plan, position, rows, remaining);
      && (selected.Ok? <==>
            InBudget(plan, position, remaining) &&
            exists k :: 0 <= k < |plan.captures| && OnlyUsable(plan.captures, k, position, rows, remaining))
      && (selected.Ok? ==>
            exists k :: 0 <= k < |plan.captures| && OnlyUsable(plan.captures, k, position, rows, remaining)
                        && selected.value == plan.captures[k])
  {
    var captures := plan.captures;
    UsableOfWidth(captures, |captures|, position, rows, remaining);
    BothCounted(captures, |captures|, position, rows, remaining);
    assert captures[..|captures|] == captures;
  }

  // ----- When a plan exists

  /** The positions of the budget in the family that ends at `end`. */
  function Share(position: int, stop: int, end: int): int { Min(stop, end) - Max(position, end - 256) }

  /** Families served: the ladder's where it is set, the short ones in short context, the middle ones otherwise. */
  predicate FamilyServed(ladder: Ladder, short: bool, end: int) {
    match ladder
    case On(allowed) => allowed && !short && end in {2304, 4352, 8448, 16640, 33024, 65792, 131328, 262400}
    case Off => if short then 256 <= end <= 768 else 4096 <= end <= 16640
  }

  /** A family with room for a wide capture is served, and has none of 64 rows, which no ticket admits. */
  predicate FamilyPlanned(ladder: Ladder, short: bool, position: int, stop: int, limit: int, end: int) {
    end % 256 == 0 && Share(position, stop, end) >= 8 && limit >= 8 ==>
      FamilyServed(ladder, short, end) && (Share(position, stop, end) < 64 || limit < 64)
  }

  /** Every family is planned. */
  ghost predicate AllPlanned(ladder: Ladder, short: bool, position: int, stop: int, limit: int) {
    forall end :: FamilyPlanned(ladder, short, position, stop, limit, end)
  }

  lemma WidthsAre(verifierRows: int, remaining: int, maxVerifyRows: int, w: nat)
    ensures w in Widths(verifierRows, remaining, maxVerifyRows) <==>
            w in VERIFY_WIDTHS && w <= Min(verifierRows, maxVerifyRows) && w <= remaining
  {
    assert VERIFY_WIDTHS[..|VERIFY_WIDTHS|] == VERIFY_WIDTHS;
  }

  /** The ticket check of a family's captures passes only if the family is planned. */
  lemma ValidIsPlanned(ladder: Ladder, short: bool, position: int, remaining: int, verifierRows: int,
                       maxVerifyRows: int, end: int)
    requires position >= 0 && (short ==> maxVerifyRows == 8 && position >= 128)
    requires var widths := Widths(verifierRows, remaining, maxVerifyRows);
      FamilyValid(ladder, short, position, position + remaining, end, widths, |widths|)
    ensures FamilyPlanned(ladder, short, position, position + remaining, Min(verifierRows, maxVerifyRows), end)
  {
    var widths, stop, limit := Widths(verifierRows, remaining, maxVerifyRows), position + remaining,
        Min(verifierRows, maxVerifyRows);
    var share := Share(position, stop, end);
    if end % 256 == 0 && share >= 8 && limit >= 8 {
      assert VERIFY_WIDTHS[3] == 8;
      WidthsAre(verifierRows, remaining, maxVerifyRows, 8);
      var i :| 0 <= i < |widths| && widths[i] == 8;
      TicketServed(ladder, short, position, stop, limit, end, 8);
      if share >= 64 && limit >= 64 {
        assert VERIFY_WIDTHS[6] == 64;
        WidthsAre(verifierRows, remaining, maxVerifyRows, 64);
        var j :| 0 <= j < |widths| && widths[j] == 64;
        assert !ValidTicket(ladder, ShareFirst(position, end), widths[j], end, short);
      }
    }
  }

  /** It passes whenever the family is planned. */
  lemma PlannedIsValid(ladder: Ladder, short: bool, position: int, remaining: int, verifierRows: int,
                       maxVerifyRows: int, end: int)
    requires position >= 0 && end % 256 == 0 && (short ==> maxVerifyRows == 8 && position >= 128)
    requires FamilyPlanned(ladder, short, position, position + remaining, Min(verifierRows, maxVerifyRows), end)
    ensures var widths := Widths(verifierRows, remaining, maxVerifyRows);
      FamilyValid(ladder, short, position, position + remaining, end, widths, |widths|)
  {
    var widths, stop, limit := Widths(verifierRows, remaining, maxVerifyRows), position + remaining,
        Min(verifierRows, maxVerifyRows);
    forall i | 0 <= i < |widths| && !Skipped(position, stop, end, widths[i])
      ensures ValidTicket(ladder, ShareFirst(position, end), widths[i], end, short)
    {
      WidthsAre(verifierRows, remaining, maxVerifyRows, widths[i]);
      TicketServed(ladder, short, position, stop, limit, end, widths[i]);
    }
  }

  lemma TicketServed(ladder: Ladder, short: bool, position: int, stop: int, limit: int, end: int, w: nat)
    requires position >= 0 && end % 256 == 0 && (short ==> limit <= 8 && position >= 128)
    requires w in VERIFY_WIDTHS && w <= limit && 8 <= w <= Share(position, stop, end)
    ensures ValidTicket(ladder, ShareFirst(position, end), w, end, short) <==>
            FamilyServed(ladder, short, end) && w < 64
  {
  }

  /** The ticket checks of a budget. */
  lemma BudgetIsPlanned(ladder: Ladder, short: bool, position: int, remaining: int, verifierRows: int,
                        maxVerifyRows: int)
    requires position >= 0 && remaining >= 1 && (short ==> maxVerifyRows == 8 && position >= 128)
    ensures BudgetAdmitted(ladder, short, position, position + remaining,
                           Widths(verifierRows, remaining, maxVerifyRows)) <==>
            AllPlanned(ladder, short, position, position + remaining, Min(verifierRows, maxVerifyRows))
  {
    var widths, stop, limit := Widths(verifierRows, remaining, maxVerifyRows), position + remaining,
        Min(verifierRows, maxVerifyRows);
    var base, count := FamilyEnd(position), FamilyCount(position, stop);
    if BudgetAdmitted(ladder, short, position, stop, widths) {
      forall end ensures FamilyPlanned(ladder, short, position, stop, limit, end) {
        if end % 256 == 0 && Share(position, stop, end) >= 8 {
          var f := FamilyOf(position, stop, end);
          assert FamilyAdmitted(ladder, short, position, stop, widths, base, f);
          ValidIsPlanned(ladder, short, position, remaining, verifierRows, maxVerifyRows, end);
        }
      }
    }
    if AllPlanned(ladder, short, position, stop, limit) {
      forall f | 0 <= f < count ensures FamilyAdmitted(ladder, short, position, stop, widths, base, f) {
        assert FamilyPlanned(ladder, short, position, stop, limit, base + 256 * f);
        PlannedIsValid(ladder, short, position, remaining, verifierRows, maxVerifyRows, base + 256 * f);
      }
    }
  }

  /** The plan loop comes to every family in which the budget has positions. */
  lemma FamilyOf(position: int, stop: int, end: int) returns (f: nat)
    requires position < stop && end % 256 == 0 && Share(position, stop, end) > 0
    ensures f < FamilyCount(position, stop) && FamilyEnd(position) + 256 * f == end
  {
    f := end / 256 - (position / 256 + 1);
  }

  /**
   * A plan exists exactly when the request is within the limits, a short-context one within its own, and every family
   * in which the budget has room for eight rows is served and cannot be asked for 64.
   */
  lemma PlannableExactlyWhen(ladder: Ladder, position: int, pageCapacity: int, verifierRows: int, remaining: int,
                             maxVerifyRows: int, short: bool)
    ensures Plannable(ladder, position, pageCapacity, verifierRows, remaining, maxVerifyRows, short) <==>
      && maxVerifyRows in {1, 2, 4, 8, 16, 32, 64} && verifierRows in {16, 32, 64}
      && position >= 0 && remaining >= 1 && position + remaining <= pageCapacity
      && (short ==> maxVerifyRows == 8 && position >= 128 && position + remaining <= 768)
      && AllPlanned(ladder, short, position, position + remaining, Min(verifierRows, maxVerifyRows))
  {
    assert maxVerifyRows >= 0 && maxVerifyRows in VERIFY_WIDTHS <==> maxVerifyRows in {1, 2, 4, 8, 16, 32, 64};
    if position >= 0 && remaining >= 1 && (short ==> maxVerifyRows == 8 && position >= 128) {
      BudgetIsPlanned(ladder, short, position, remaining, verifierRows, maxVerifyRows);
    }
  }

  /** A budget of 64 tokens that fills a quarter of a served family, asked for with the widest limits, has no plan. */
  lemma WidestLimitsRaise()
    ensures Plannable(Off, 4096, 4160, 64, 64, 32, false) && !Plannable(Off, 4096, 4160, 64, 64, 64, false)
  {
    PlannableExactlyWhen(Off, 4096, 4160, 64, 64, 32, false);
    PlannableExactlyWhen(Off, 4096, 4160, 64, 64, 64, false);
    assert !FamilyPlanned(Off, false, 4096, 4160, 64, 4352);
  }

  // ----- capture_bucket_rows

  /** How many captures of a width the pool allocates for a budget. */
  function Multiplicity(rows: nat, remaining: nat): nat
    requires rows > 0
  {
    if rows < 8 then 1 else Min((remaining + 254) / 256 + 1, Quotient(remaining, rows))
  }

  function Copies(width: nat, remaining: nat): (copies: seq<nat>)
    ensures width > 0 ==> |copies| == Multiplicity(width, remaining)
    ensures forall i :: 0 <= i < |copies| ==> copies[i] == width
  {
    if width == 0 then [] else seq(Multiplicity(width, remaining), _ => width)
  }

  /** The first `n` widths, each with its multiplicity. */
  function BucketOf(widths: seq<nat>, n: nat, remaining: nat): seq<nat>
    requires n <= |widths|
  {
    if n == 0 then [] else BucketOf(widths, n - 1, remaining) + Copies(widths[n - 1], remaining)
  }

  /** `capture_bucket_rows`. */
  method CaptureBucketRows(verifierRows: int, remaining: int, maxVerifyRows: int) returns (r: Result<seq<nat>>)
    ensures r.Ok? <==> WidthsAllowed(0, remaining, verifierRows, remaining, maxVerifyRows)
    ensures r.Ok? ==> var widths := Widths(verifierRows, remaining, maxVerifyRows);
                      r.value == BucketOf(widths, |widths|, remaining)
  {
    if remaining < 1 {
      return Raised;
    }
    var widths := CaptureWidths(0, remaining, verifierRows, remaining, maxVerifyRows);
    if widths.Raised? {
      return Raised;
    }
    var bucket := Bucket(widths.value, remaining);
    r := Ok(bucket);
  }

  method Bucket(widths: seq<nat>, remaining: nat) returns (bucket: seq<nat>)
    ensures bucket == BucketOf(widths, |widths|, remaining)
  {
    bucket := [];
    for i := 0 to |widths|
      invariant bucket == BucketOf(widths, i, remaining)
    {
      bucket := bucket + Copies(widths[i], remaining);
    }
  }

  lemma {:induction false} CopiesCounted(width: nat, copies: seq<nat>, w: nat)
    requires forall i :: 0 <= i < |copies| ==> copies[i] == width
    ensures multiset(copies)[w] == if w == width then |copies| else 0
  {
    if copies != [] {
      CopiesCounted(width, copies[1..], w);
      assert copies == [copies[0]] + copies[1..];
    }
  }

  lemma NewWidth(widths: seq<nat>, n: nat, w: nat)
    requires n < |widths| && Increasing(widths)
    ensures w in widths[..n + 1] <==> w in widths[..n] || w == widths[n]
    ensures w == widths[n] ==> w !in widths[..n]
  {
    assert widths[..n + 1] == widths[..n] + [widths[n]];
  }

  /** The bucket holds every width as often as its multiplicity says. */
  lemma {:induction false} BucketCounts(widths: seq<nat>, n: nat, remaining: nat, w: nat)
    requires n <= |widths| && Increasing(widths) && w > 0
    ensures multiset(BucketOf(widths, n, remaining))[w] == if w in widths[..n] then Multiplicity(w, remaining) else 0
  {
    if n > 0 {
      BucketCounts(widths, n - 1, remaining, w);
      CopiesCounted(widths[n - 1], Copies(widths[n - 1], remaining), w);
      NewWidth(widths, n - 1, w);
    }
  }

  lemma {:induction false} OfWidthPrefix(a: seq<Capture>, b: seq<Capture>, n: nat, rows: int)
    requires n <= |a| && n <= |b| && a[..n] == b[..n]
    ensures OfWidth(a, n, rows) == OfWidth(b, n, rows)
  {
    if n > 0 {
      assert a[n - 1] == a[..n][n - 1] == b[..n][n - 1] == b[n - 1];
      assert a[..n - 1] == a[..n][..n - 1] == b[..n][..n - 1] == b[..n - 1];
      OfWidthPrefix(a, b, n - 1, rows);
    }
  }

  lemma {:induction false} OfWidthConcat(a: seq<Capture>, b: seq<Capture>, n: nat, rows: int)
    requires n <= |b|
    ensures OfWidth(a + b, |a| + n, rows) == OfWidth(a, |a|, rows) + OfWidth(b, n, rows)
  {
    if n == 0 {
      assert (a + b)[..|a|] == a[..|a|];
      OfWidthPrefix(a + b, a, |a|, rows);
    } else {
      OfWidthConcat(a, b, n - 1, rows);
      assert (a + b)[|a| + n - 1] == b[n - 1];
    }
  }

  /** A list of captures of one capacity and unique keys has at most one of each width. */
  lemma OneOfWidth(captures: seq<Capture>, rows: int, capacity: Option<int>)
    requires UniqueKeys(captures) && forall c :: c in captures ==> c.capacity == capacity
    ensures |OfWidth(captures, |captures|, rows)| <= 1
  {
    var matches := OfWidth(captures, |captures|, rows);
    OfWidthUnique(captures, |captures|, rows);
    assert captures[..|captures|] == captures;
    forall i | 0 <= i < |matches| ensures matches[i].rows == rows && matches[i].capacity == capacity {
      OfWidthHolds(captures, |captures|, rows, matches[i]);
      assert matches[i] in captures;
    }
    if |matches| > 1 {
      DistinctKeys(matches, 0, 1);
    }
  }

  lemma DistinctKeys(captures: seq<Capture>, i: nat, j: nat)
    requires UniqueKeys(captures) && i < j < |captures|
    ensures captures[i].rows != captures[j].rows || captures[i].capacity != captures[j].capacity
  {
  }

  /** A family has at most one capture of a width, and none that does not fit the budget's share of it. */
  lemma FamilyOfWidth(position: int, stop: int, capacity: int, widths: seq<nat>, rows: nat)
    requires Increasing(widths)
    ensures var family := FamilyCaptures(position, stop, capacity, widths, |widths|);
      |OfWidth(family, |family|, rows)| <= if Skipped(position, stop, capacity, rows) then 0 else 1
  {
    var family := FamilyCaptures(position, stop, capacity, widths, |widths|);
    FamilyUnique(position, stop, capacity, widths, |widths|);
    forall c | c in family ensures c.capacity == Some(capacity) {
      FamilyHolds(position, stop, capacity, widths, |widths|, c);
    }
    OneOfWidth(family, rows, Some(capacity));
    var matches := OfWidth(family, |family|, rows);
    if matches != [] {
      OfWidthHolds(family, |family|, rows, matches[0]);
      FamilyHolds(position, stop, capacity, widths, |widths|, matches[0]);
    }
  }

  lemma NarrowOfWidth(position: int, widths: seq<nat>, rows: nat)
    requires Increasing(widths)
    ensures var narrow := NarrowCaptures(position, widths, |widths|);
      |OfWidth(narrow, |narrow|, rows)| <= if rows < 8 then 1 else 0
  {
    var narrow := NarrowCaptures(position, widths, |widths|);
    NarrowUnique(position, widths, |widths|);
    forall c | c in narrow ensures c.capacity == None {
      NarrowHolds(position, widths, |widths|, c);
    }
    OneOfWidth(narrow, rows, None);
    var matches := OfWidth(narrow, |narrow|, rows);
    if matches != [] {
      OfWidthHolds(narrow, |narrow|, rows, matches[0]);
      NarrowHolds(position, widths, |widths|, matches[0]);
    }
  }

  /** How far the first `n` families of a budget reach. */
  function Reach(position: int, stop: int, base: int, n: nat): int {
    if n == 0 then position else Min(stop, base + 256 * (n - 1))
  }

  function CountOf(captures: seq<Capture>, rows: nat): nat { |OfWidth(captures, |captures|, rows)| }

  /** One more family adds its captures of a width. */
  lemma CountNext(position: int, stop: int, widths: seq<nat>, base: int, n: nat, rows: nat)
    ensures CountOf(Captures(position, stop, widths, base, n + 1), rows) ==
            CountOf(Captures(position, stop, widths, base, n), rows) +
            CountOf(FamilyCaptures(position, stop, base + 256 * n, widths, |widths|), rows)
  {
    CapturesExtend(position, stop, widths, base, n);
    var before := Captures(position, stop, widths, base, n);
    var family := FamilyCaptures(position, stop, base + 256 * n, widths, |widths|);
    OfWidthConcat(before, family, |family|, rows);
    assert |before + family| == |before| + |family|;
  }

  /** A capture more in the next share of the budget. */
  lemma NextShare(position: int, stop: int, base: int, n: nat, rows: nat, count: nat, more: nat)
    requires position < stop && position < base <= position + 256 && base + 256 * (n - 1) < stop
    requires count <= n && At(count, rows) <= Reach(position, stop, base, n) - position
    requires more <= if Skipped(position, stop, base + 256 * n, rows) then 0 else 1
    ensures count + more <= n + 1 && At(count + more, rows) <= Reach(position, stop, base, n + 1) - position
  {
    ShareFollows(position, stop, base, n);
  }

  /** The wide captures of one width lie in disjoint shares of the budget. */
  lemma {:induction false} WideCapturesAreDisjoint(position: int, stop: int, widths: seq<nat>, base: int, n: nat,
                                                   rows: nat)
    requires Increasing(widths) && rows >= 8 && position < stop && position < base <= position + 256
    requires n > 0 ==> base + 256 * (n - 2) < stop
    ensures var count := CountOf(Captures(position, stop, widths, base, n), rows);
      count <= n && At(count, rows) <= Reach(position, stop, base, n) - position
    decreases n
  {
    if n == 0 {
      assert Captures(position, stop, widths, base, n) == NarrowCaptures(position, widths, |widths|);
      NarrowOfWidth(position, widths, rows);
    } else {
      var capacity := base + 256 * (n - 1);
      WideCapturesAreDisjoint(position, stop, widths, base, n - 1, rows);
      CountNext(position, stop, widths, base, n - 1, rows);
      FamilyOfWidth(position, stop, capacity, widths, rows);
      NextShare(position, stop, base, n - 1, rows, CountOf(Captures(position, stop, widths, base, n - 1), rows),
                CountOf(FamilyCaptures(position, stop, capacity, widths, |widths|), rows));
    }
  }

  /** A family's share of the budget starts where the families before it end. */
  lemma ShareFollows(position: int, stop: int, base: int, n: nat)
    requires position < stop && position < base <= position + 256 && base + 256 * (n - 1) < stop
    ensures ShareFirst(position, base + 256 * n) == Reach(position, stop, base, n) <= Reach(position, stop, base, n + 1)
    ensures ShareLast(stop, base + 256 * n) == Reach(position, stop, base, n + 1)
  {
  }

  /** At every position a plan has at most as many captures of a width as the bucket allocates for the budget. */
  lemma BucketCoversPlan(position: int, budget: nat, widths: seq<nat>, rows: nat)
    requires budget >= 1 && Increasing(widths) && rows > 0 && rows in widths
    ensures var captures := PlanOf(position, budget, widths).captures;
      |OfWidth(captures, |captures|, rows)| <= multiset(BucketOf(widths, |widths|, budget))[rows]
  {
    LargerPoolCovers(position, budget, widths, budget, widths, rows);
  }

  lemma CapturesFitBudget(position: int, budget: nat, widths: seq<nat>, base: int, n: nat, rows: nat)
    requires budget >= 1 && Increasing(widths) && rows > 0
    requires base == FamilyEnd(position) && n == FamilyCount(position, position + budget)
    ensures CountOf(Captures(position, position + budget, widths, base, n), rows) <= Multiplicity(rows, budget)
  {
    if rows < 8 {
      NarrowCapturesOnce(position, position + budget, widths, base, n, rows);
    } else {
      FamiliesOfBudget(position, budget);
      WideCapturesAreDisjoint(position, position + budget, widths, base, n, rows);
      SharesFit(budget, rows, n, CountOf(Captures(position, position + budget, widths, base, n), rows));
    }
  }

  /** A larger budget allocates at least as many captures of a width. */
  lemma MoreMultiplicity(rows: nat, budget: nat, pool: nat)
    requires rows > 0 && budget <= pool
    ensures Multiplicity(rows, budget) <= Multiplicity(rows, pool)
  {
    QuotientOrder(budget, pool, rows);
  }

  /** A plan holds captures of its own widths only. */
  lemma NoOtherWidth(position: int, stop: int, widths: seq<nat>, rows: nat)
    requires position < stop && rows !in widths
    ensures CountOf(BudgetCaptures(position, stop, widths), rows) == 0
  {
    var captures := BudgetCaptures(position, stop, widths);
    var matches := OfWidth(captures, |captures|, rows);
    if matches != [] {
      OfWidthHolds(captures, |captures|, rows, matches[0]);
      assert captures[..|captures|] == captures;
      CapturesWanted(position, stop, widths, FamilyEnd(position), FamilyCount(position, stop), matches[0]);
    }
  }

  /** Widths within tighter limits are widths within the looser ones. */
  lemma WidthsWithin(limit: int, looser: int, rows: nat)
    requires limit <= looser && rows in WidthsUpTo(limit, |VERIFY_WIDTHS|)
    ensures rows in WidthsUpTo(looser, |VERIFY_WIDTHS|) && rows > 0
  {
    var all := VERIFY_WIDTHS[..|VERIFY_WIDTHS|];
    assert all == VERIFY_WIDTHS && rows in all;
  }

  /**
   * The bucket rows a pool allocates for its output budget, before any request exists, cover every plan of every
   * request: whatever its position, its remaining budget up to the pool's, and its own row limits up to the pool's.
   */
  lemma PoolCoversPlans(poolRows: int, pool: nat, poolCap: int, verifierRows: int, budget: nat, cap: int, position: int,
                        rows: nat)
    requires 1 <= budget <= pool && verifierRows <= poolRows && cap <= poolCap
    ensures var captures := PlanOf(position, budget, Widths(verifierRows, budget, cap)).captures;
      var widths := Widths(poolRows, pool, poolCap);
      |OfWidth(captures, |captures|, rows)| <= multiset(BucketOf(widths, |widths|, pool))[rows]
  {
    var limit, looser := Min(Min(verifierRows, budget), cap), Min(Min(poolRows, pool), poolCap);
    var widths, poolWidths := Widths(verifierRows, budget, cap), Widths(poolRows, pool, poolCap);
    WidthsIncrease(limit, |VERIFY_WIDTHS|);
    WidthsIncrease(looser, |VERIFY_WIDTHS|);
    if rows in widths {
      WidthsWithin(limit, looser, rows);
    }
    OfferedOrNone(position, budget, widths, pool, poolWidths, rows);
  }

  lemma OfferedOrNone(position: int, budget: nat, widths: seq<nat>, pool: nat, poolWidths: seq<nat>, rows: nat)
    requires 1 <= budget <= pool && Increasing(widths) && Increasing(poolWidths)
    requires rows in widths ==> rows > 0 && rows in poolWidths
    ensures var captures := PlanOf(position, budget, widths).captures;
      |OfWidth(captures, |captures|, rows)| <= multiset(BucketOf(poolWidths, |poolWidths|, pool))[rows]
  {
    if rows in widths {
      LargerPoolCovers(position, budget, widths, pool, poolWidths, rows);
    } else {
      NoneOffered(position, budget, widths, rows);
    }
  }

  lemma NoneOffered(position: int, budget: nat, widths: seq<nat>, rows: nat)
    requires budget >= 1 && rows !in widths
    ensures var captures := PlanOf(position, budget, widths).captures;
      |OfWidth(captures, |captures|, rows)| == 0
  {
    NoOtherWidth(position, position + budget, widths, rows);
  }

  /** A plan of a budget is covered by the bucket of any larger one that has the width. */
  lemma LargerPoolCovers(position: int, budget: nat, widths: seq<nat>, pool: nat, poolWidths: seq<nat>, rows: nat)
    requires 1 <= budget <= pool && Increasing(widths) && Increasing(poolWidths) && rows > 0 && rows in poolWidths
    ensures var captures := PlanOf(position, budget, widths).captures;
      |OfWidth(captures, |captures|, rows)| <= multiset(BucketOf(poolWidths, |poolWidths|, pool))[rows]
  {
    BucketCounts(poolWidths, |poolWidths|, pool, rows);
    assert poolWidths[..|poolWidths|] == poolWidths;
    MoreMultiplicity(rows, budget, pool);
    CapturesFitBudget(position, budget, widths, FamilyEnd(position), FamilyCount(position, position + budget), rows);
  }

  /** Captures in disjoint shares of a budget are no more than it holds. */
  lemma SharesFit(budget: nat, rows: nat, families: nat, count: nat)
    requires rows >= 8 && count <= families <= (budget + 254) / 256 + 1 && At(count, rows) <= budget
    ensures count <= Multiplicity(rows, budget)
  {
    QuotientShift(budget - At(count, rows), count, rows);
  }

  lemma FamiliesOfBudget(position: int, budget: nat)
    requires budget >= 1
    ensures FamilyCount(position, position + budget) <= (budget + 254) / 256 + 1
    ensures position < FamilyEnd(position) <= position + 256
    ensures FamilyEnd(position) + 256 * (FamilyCount(position, position + budget) - 2) < position + budget
  {
  }

  /** The families a budget touches from a position. */
  function FamiliesFrom(position: nat, budget: nat): nat
    requires budget > 0
  {
    FamilyCount(position, position + budget)
  }

  /** `families` is the most families a budget touches, over all positions. */
  ghost predicate MostFamilies(budget: nat, families: nat)
    requires budget > 0
  {
    && (forall position: nat :: FamiliesFrom(position, budget) <= families)
    && exists position: nat :: FamiliesFrom(position, budget) == families
  }

  lemma MostFamiliesIs(budget: nat, families: nat)
    requires budget > 0 && MostFamilies(budget, families)
    ensures families == (budget + 254) / 256 + 1
  {
    var position: nat :| FamiliesFrom(position, budget) == families;
    FamiliesOfBudget(position, budget);
    assert FamiliesFrom(255, budget) == (budget + 254) / 256 + 1;
  }

  lemma LargestMultiplicity(rows: nat, budget: nat)
    requires rows >= 8
    ensures var copies, families := Multiplicity(rows, budget), (budget + 254) / 256 + 1;
      copies <= families && At(copies, rows) <= budget && (copies == families || budget < At(copies + 1, rows))
  {
    Divided(budget, rows);
    AtGrows(Multiplicity(rows, budget), Quotient(budget, rows), rows);
  }

  /**
   * The bucket allocates one capture of each narrow width, and of each wide width as many as both the families that the
   * budget can touch and its tokens allow, and no more.
   */
  lemma BucketIsLargest(widths: seq<nat>, budget: nat, rows: nat, families: nat)
    requires budget > 0 && Increasing(widths) && rows > 0 && rows in widths && MostFamilies(budget, families)
    ensures var copies := multiset(BucketOf(widths, |widths|, budget))[rows];
      if rows < 8 then copies == 1
      else copies <= families && At(copies, rows) <= budget && (copies == families || budget < At(copies + 1, rows))
  {
    BucketCounts(widths, |widths|, budget, rows);
    assert widths[..|widths|] == widths;
    MostFamiliesIs(budget, families);
    if rows >= 8 {
      LargestMultiplicity(rows, budget);
    }
  }

  lemma {:induction false} NarrowCapturesOnce(position: int, stop: int, widths: seq<nat>, base: int, n: nat, rows: nat)
    requires Increasing(widths) && rows < 8
    ensures CountOf(Captures(position, stop, widths, base, n), rows) <= 1
  {
    if n == 0 {
      assert Captures(position, stop, widths, base, n) == NarrowCaptures(position, widths, |widths|);
      NarrowOfWidth(position, widths, rows);
    } else {
      NarrowCapturesOnce(position, stop, widths, base, n - 1, rows);
      CountNext(position, stop, widths, base, n - 1, rows);
      FamilyOfWidth(position, stop, base + 256 * (n - 1), widths, rows);
    }
  }
}
