/** Admission of at most one partial prefill and the decode credit (optimisation/sim/interleave.py, lines 39-83). */
module Scheduler {
  import opened Results

  // ----- Decode credit

  /** `choose_prefill` for a valid ratio: the new credit and whether to prefill. */
  function ChooseStep(ratio: nat, credit: nat, wants: bool, hasDecode: bool): (r: (nat, bool)) {
    if !wants then (0, false)
    else if hasDecode && credit > 0 then (credit - 1, false)
    else (if hasDecode then ratio else 0, true)
  }

  class CreditOwner {
    var credit: nat

    constructor ()
      ensures credit == 0
    {
      credit := 0;
    }

    /** `choose_prefill`; a ratio other than 1, 2 or 4 raises and changes nothing. */
    method ChoosePrefill(ratio: int, wants: bool, hasDecode: bool) returns (r: Result<bool>)
      modifies this
      ensures ratio !in {1, 2, 4} ==> r.Raised? && credit == old(credit)
      ensures ratio in {1, 2, 4} ==> r.Ok? && (credit, r.value) == ChooseStep(ratio, old(credit), wants, hasDecode)
    {
      if ratio !in {1, 2, 4} {
        return Raised;
      }
      var remaining := credit;
      if !wants {
        credit := 0;
        return Ok(false);
      }
      if hasDecode && remaining > 0 {
        credit := remaining - 1;
        return Ok(false);
      }
      credit := if hasDecode then ratio else 0;
      r := Ok(true);
    }
  }

  /** One scheduling decision: whether a prefill is wanted and whether decodes are running. */
  datatype Call = Call(wants: bool, hasDecode: bool)

  /** The choices made over a run of calls. */
  function Choices(ratio: nat, credit: nat, calls: seq<Call>): (choices: seq<bool>)
    ensures |choices| == |calls|
    decreases |calls|
  {
    if calls == [] then []
    else
      var (next, choice) := ChooseStep(ratio, credit, calls[0].wants, calls[0].hasDecode);
      [choice] + Choices(ratio, next, calls[1..])
  }

  /** The credit after a run of calls. */
  function CreditAfter(ratio: nat, credit: nat, calls: seq<Call>): nat
    decreases |calls|
  {
    if calls == [] then credit
    else CreditAfter(ratio, ChooseStep(ratio, credit, calls[0].wants, calls[0].hasDecode).0, calls[1..])
  }

  lemma {:induction false} CreditBounded(ratio: nat, credit: nat, calls: seq<Call>)
    requires credit <= ratio
    ensures CreditAfter(ratio, credit, calls) <= ratio
    decreases |calls|
  {
    if calls != [] {
      CreditBounded(ratio, ChooseStep(ratio, credit, calls[0].wants, calls[0].hasDecode).0, calls[1..]);
    }
  }

  lemma {:induction false} ChoicesSplit(ratio: nat, credit: nat, before: seq<Call>, after: seq<Call>)
    ensures Choices(ratio, credit, before + after) ==
            Choices(ratio, credit, before) + Choices(ratio, CreditAfter(ratio, credit, before), after)
    decreases |before|
  {
    if before == [] {
      assert before + after == after;
    } else {
      var next := ChooseStep(ratio, credit, before[0].wants, before[0].hasDecode).0;
      assert (before + after)[1..] == before[1..] + after;
      ChoicesSplit(ratio, next, before[1..], after);
    }
  }

  lemma {:induction false} CreditOfNext(ratio: nat, credit: nat, calls: seq<Call>, call: Call)
    ensures CreditAfter(ratio, credit, calls + [call]) ==
            ChooseStep(ratio, CreditAfter(ratio, credit, calls), call.wants, call.hasDecode).0
    decreases |calls|
  {
    if calls == [] {
      assert (calls + [call])[1..] == [];
    } else {
      assert (calls + [call])[1..] == calls[1..] + [call];
      CreditOfNext(ratio, ChooseStep(ratio, credit, calls[0].wants, calls[0].hasDecode).0, calls[1..], call);
    }
  }

  /** One choice and one credit of a run from no credit. */
  lemma ChoiceAt(ratio: nat, calls: seq<Call>, k: nat)
    requires k < |calls|
    ensures var (next, choice) :=
        ChooseStep(ratio, CreditAfter(ratio, 0, calls[..k]), calls[k].wants, calls[k].hasDecode);
      Choices(ratio, 0, calls)[k] == choice && CreditAfter(ratio, 0, calls[..k + 1]) == next
  {
    assert calls[..k] + calls[k..] == calls;
    ChoicesSplit(ratio, 0, calls[..k], calls[k..]);
    assert calls[..k] + [calls[k]] == calls[..k + 1];
    CreditOfNext(ratio, 0, calls[..k], calls[k]);
  }

  /** Call `j` chose a prefill beside a decode, and every call between it and `k` wanted one beside a decode. */
  predicate Paying(ratio: nat, calls: seq<Call>, j: nat, k: nat)
    requires k <= |calls|
  {
    && j < k && Choices(ratio, 0, calls)[j] && calls[j].hasDecode
    && forall i :: j < i < k ==> calls[i].wants && calls[i].hasDecode
  }

  /** The credit before call `k`: what is left of the `ratio` decodes owed since such a prefill. */
  lemma {:induction false} CreditIsHistory(ratio: nat, calls: seq<Call>, k: nat)
    requires k <= |calls|
    ensures var credit := CreditAfter(ratio, 0, calls[..k]);
      && (credit > 0 <==> exists j: nat :: k - ratio <= j < k && Paying(ratio, calls, j, k))
      && forall j: nat :: k - ratio <= j < k && Paying(ratio, calls, j, k) ==> credit == ratio - (k - 1 - j)
  {
    if k > 0 {
      var before, last := CreditAfter(ratio, 0, calls[..k - 1]), calls[k - 1];
      CreditIsHistory(ratio, calls, k - 1);
      ChoiceAt(ratio, calls, k - 1);
      var credit := CreditAfter(ratio, 0, calls[..k]);
      forall j: nat | k - ratio <= j < k && Paying(ratio, calls, j, k) ensures credit == ratio - (k - 1 - j) {
        assert j < k - 1 ==> Paying(ratio, calls, j, k - 1);
      }
      if credit > 0 {
        if Choices(ratio, 0, calls)[k - 1] {
          assert Paying(ratio, calls, k - 1, k);
        } else {
          var j: nat :| k - 1 - ratio <= j < k - 1 && Paying(ratio, calls, j, k - 1);
          assert Paying(ratio, calls, j, k);
        }
      }
    }
  }

  /**
   * Over all call sequences a prefill is chosen exactly when one is wanted and either no decode runs or no prefill was
   * chosen beside a decode within the last `ratio` calls with every call since wanting one beside a decode.
   */
  lemma ChosenExactlyWhen(ratio: nat, calls: seq<Call>, k: nat)
    requires k < |calls|
    ensures Choices(ratio, 0, calls)[k] <==>
            calls[k].wants &&
            (!calls[k].hasDecode || !exists j: nat :: k - ratio <= j < k && Paying(ratio, calls, j, k))
  {
    CreditIsHistory(ratio, calls, k);
    ChoiceAt(ratio, calls, k);
  }

  lemma {:induction false} CreditRunsOut(ratio: nat, credit: nat, calls: seq<Call>)
    requires credit < |calls| && forall k :: 0 <= k <= credit ==> calls[k].wants
    ensures exists k :: 0 <= k <= credit && Choices(ratio, credit, calls)[k]
    decreases |calls|
  {
    var (next, choice) := ChooseStep(ratio, credit, calls[0].wants, calls[0].hasDecode);
    if choice {
      assert Choices(ratio, credit, calls)[0];
    } else {
      CreditRunsOut(ratio, next, calls[1..]);
      var k :| 0 <= k <= next && Choices(ratio, next, calls[1..])[k];
      assert Choices(ratio, credit, calls)[k + 1];
    }
  }

  /** At any point of any run, a prefill that stays wanted is chosen after at most `ratio` decode steps. */
  lemma WantedPrefillWaitsAtMostRatio(ratio: nat, before: seq<Call>, wanted: seq<Call>)
    requires |wanted| == ratio + 1 && forall k :: 0 <= k < |wanted| ==> wanted[k].wants
    ensures exists k :: |before| <= k < |before| + |wanted| && Choices(ratio, 0, before + wanted)[k]
  {
    CreditBounded(ratio, 0, before);
    var credit := CreditAfter(ratio, 0, before);
    CreditRunsOut(ratio, credit, wanted);
    ChoicesSplit(ratio, 0, before, wanted);
    var k :| 0 <= k <= credit && Choices(ratio, credit, wanted)[k];
    assert Choices(ratio, 0, before + wanted)[|before| + k];
  }

  function Repeat(call: Call, n: nat): (calls: seq<Call>)
    ensures |calls| == n && forall k :: 0 <= k < n ==> calls[k] == call
  {
    seq(n, _ => call)
  }

  lemma {:induction false} CreditCountsDown(ratio: nat, credit: nat, n: nat)
    requires n <= credit
    ensures Choices(ratio, credit, Repeat(Call(true, true), n)) == seq(n, _ => false)
    ensures CreditAfter(ratio, credit, Repeat(Call(true, true), n)) == credit - n
  {
    if n > 0 {
      assert Repeat(Call(true, true), n)[1..] == Repeat(Call(true, true), n - 1);
      CreditCountsDown(ratio, credit - 1, n - 1);
    }
  }

  /** With decodes always running, each prefill is followed by exactly `ratio` decode steps. */
  lemma PrefillsAreSpacedByRatio(ratio: nat)
    ensures Choices(ratio, 0, Repeat(Call(true, true), ratio + 1)) == [true] + seq(ratio, _ => false)
    ensures CreditAfter(ratio, 0, Repeat(Call(true, true), ratio + 1)) == 0
  {
    assert Repeat(Call(true, true), ratio + 1)[1..] == Repeat(Call(true, true), ratio);
    CreditCountsDown(ratio, ratio, ratio);
  }

  // ----- The single partial prefill

  /** Request ids in the scheduler's queues, its running limit, and the ids whose prefill is still partial. */
  datatype Queues = Queues(running: seq<nat>, waiting: seq<nat>, skipped: seq<nat>, limit: int, chunk: set<nat>)

  function Decodes(q: Queues): seq<nat> {
    Filter(q.running, q.chunk, false)
  }

  function Partials(q: Queues): seq<nat> {
    Filter(q.running, q.chunk, true)
  }

  /** The ids that are (or are not) in `chunk`, in order. */
  function Filter(ids: seq<nat>, chunk: set<nat>, keep: bool): (kept: seq<nat>)
    ensures |kept| <= |ids|
    ensures forall i :: 0 <= i < |kept| ==> kept[i] in ids && (kept[i] in chunk) == keep
  {
    if ids == [] then []
    else
      var rest := Filter(ids[1..], chunk, keep);
      if (ids[0] in chunk) == keep then [ids[0]] + rest else rest
  }

  lemma {:induction false} FilterSplits(ids: seq<nat>, chunk: set<nat>)
    ensures multiset(Filter(ids, chunk, true)) + multiset(Filter(ids, chunk, false)) == multiset(ids)
    ensures |Filter(ids, chunk, true)| + |Filter(ids, chunk, false)| == |ids|
  {
    if ids != [] {
      FilterSplits(ids[1..], chunk);
      assert ids == [ids[0]] + ids[1..];
    }
  }

  /** What `single_prefill` keeps aside while it is open. */
  datatype Saved = Saved(hasPartial: bool, limit: int, decodes: seq<nat>, waiting: seq<nat>, skipped: seq<nat>)

  function SavedOf(q: Queues): Saved {
    Saved(Partials(q) != [], q.limit, Decodes(q), q.waiting, q.skipped)
  }

  function Min(a: int, b: int): int { if a < b then a else b }

  function Max(a: int, b: int): int { if a > b then a else b }

  /** The queues the inner scheduler sees: only the partial prefill, or room for one new admission. */
  function Opened(q: Queues): Queues {
    var limit := Min(1, Max(0, q.limit - |Decodes(q)|));
    if Partials(q) != [] then Queues(Partials(q), [], [], limit, q.chunk)
    else Queues(Partials(q), q.waiting, q.skipped, limit, q.chunk)
  }

  /** The queues after the `finally` block. */
  function Closed(saved: Saved, inner: Queues): Queues {
    Queues(inner.running + saved.decodes,
           if saved.hasPartial then inner.waiting + saved.waiting else inner.waiting,
           if saved.hasPartial then inner.skipped + saved.skipped else inner.skipped,
           saved.limit, inner.chunk)
  }

  class SchedulerState {
    var queues: Queues

    constructor (queues: Queues)
      ensures this.queues == queues
    {
      this.queues := queues;
    }

    /** Entering `single_prefill`; several partial prefills raise before anything changes. */
    method Enter() returns (r: Result<Saved>)
      modifies this
      ensures r.Ok? <==> |Partials(old(queues))| <= 1
      ensures r.Ok? ==> r.value == SavedOf(old(queues)) && queues == Opened(old(queues))
      ensures r.Raised? ==> queues == old(queues)
    {
      var decodes, partial := Decodes(queues), Partials(queues);
      if |partial| > 1 {
        return Raised;
      }
      var saved := Saved(partial != [], queues.limit, decodes, queues.waiting, queues.skipped);
      queues := queues.(running := partial, limit := Min(1, Max(0, saved.limit - |decodes|)));
      if saved.hasPartial {
        queues := queues.(waiting := [], skipped := []);
      }
      r := Ok(saved);
    }

    /** Leaving it, normally or by an exception. */
    method Exit(saved: Saved)
      modifies this
      ensures queues == Closed(saved, old(queues))
    {
      if saved.hasPartial {
        var waiting, skipped := saved.waiting, saved.skipped;
        if queues.waiting != [] {
          waiting := queues.waiting + waiting;
        }
        if queues.skipped != [] {
          skipped := queues.skipped + skipped;
        }
        queues := queues.(waiting := waiting, skipped := skipped);
        assert queues.waiting == old(queues).waiting + saved.waiting;
      }
      queues := queues.(running := queues.running + saved.decodes, limit := saved.limit);
    }
  }

  function Requests(q: Queues): multiset<nat> {
    multiset(q.running) + multiset(q.waiting) + multiset(q.skipped)
  }

  /**
   * The inner scheduler, finished or interrupted by an exception: it moves requests between the queues it sees,
   * admits only up to its limit, and changes the prefill progress only of requests it sees.
   */
  ghost predicate InnerStep(q: Queues, inner: Queues) {
    && Requests(inner) == Requests(q)
    && |inner.running| <= Max(|q.running|, q.limit)
    && forall id :: id !in Requests(q) ==> (id in inner.chunk <==> id in q.chunk)
  }

  /** No request is in two places. */
  ghost predicate NoDuplicates(q: Queues) {
    forall id :: id in Requests(q) ==> Requests(q)[id] == 1
  }

  /** Running requests fit the limit, and at most one of them is a partial prefill. */
  ghost predicate Healthy(q: Queues) {
    NoDuplicates(q) && |q.running| <= q.limit && |Partials(q)| <= 1
  }

  /** A prefill pass can end with this request alone running. */
  ghost predicate CanRun(q: Queues, id: nat) {
    exists inner :: InnerStep(Opened(q), inner) && inner.running == [id]
  }

  lemma OneTaken(ids: seq<nat>, id: nat) returns (rest: seq<nat>)
    requires id in ids
    ensures multiset(ids) == multiset([id]) + multiset(rest)
  {
    var k :| 0 <= k < |ids| && ids[k] == id;
    rest := ids[..k] + ids[k + 1..];
    assert ids == ids[..k] + [id] + ids[k + 1..];
  }

  /** With room and nothing partial, the pass can take any waiting request. */
  lemma WaitingRuns(q: Queues, id: nat)
    requires Partials(q) == [] && |Decodes(q)| < q.limit && (id in q.waiting || id in q.skipped)
    ensures CanRun(q, id)
  {
    var inner: Queues;
    if id in q.waiting {
      var rest := OneTaken(q.waiting, id);
      inner := Opened(q).(running := [id], waiting := rest);
    } else {
      var rest := OneTaken(q.skipped, id);
      inner := Opened(q).(running := [id], skipped := rest);
    }
    assert InnerStep(Opened(q), inner);
  }

  /** What a pass ends with it saw, and in the limit it saw. */
  lemma RunsWereSeen(q: Queues, inner: Queues, id: nat)
    requires InnerStep(Opened(q), inner) && inner.running == [id]
    ensures Partials(q) != [] || Opened(q).limit >= 1
    ensures id in Opened(q).running || id in Opened(q).waiting || id in Opened(q).skipped
  {
    assert id in Requests(inner);
    assert id in Requests(Opened(q));
  }

  /**
   * A prefill pass can run exactly the partial prefill if there is one, and otherwise, exactly if the decodes leave a
   * place, any one of the waiting requests.
   */
  lemma PassRunsExactly(q: Queues, id: nat)
    requires Healthy(q)
    ensures CanRun(q, id) <==>
            if Partials(q) != [] then Partials(q) == [id]
            else |Decodes(q)| < q.limit && (id in q.waiting || id in q.skipped)
  {
    if CanRun(q, id) {
      var inner :| InnerStep(Opened(q), inner) && inner.running == [id];
      RunsWereSeen(q, inner, id);
    }
    if Partials(q) == [id] {
      PartialRuns(q, id);
    } else if Partials(q) == [] && |Decodes(q)| < q.limit && (id in q.waiting || id in q.skipped) {
      WaitingRuns(q, id);
    }
  }

  lemma PartialRuns(q: Queues, id: nat)
    requires Healthy(q) && Partials(q) == [id]
    ensures CanRun(q, id)
  {
    OpenedRequests(q);
    assert InnerStep(Opened(q), Opened(q)) && Opened(q).running == [id];
  }

  lemma OpenedRequests(q: Queues)
    ensures Requests(q) == Requests(Opened(q)) + multiset(Decodes(q))
                           + (if Partials(q) != [] then multiset(q.waiting) + multiset(q.skipped) else multiset{})
    ensures |Partials(q)| + |Decodes(q)| == |q.running|
  {
    FilterSplits(q.running, q.chunk);
  }

  /** No request is lost or duplicated, the limit and the hidden queues come back, even on an exception. */
  lemma SinglePrefillConserves(q: Queues, inner: Queues)
    requires InnerStep(Opened(q), inner)
    ensures var after := Closed(SavedOf(q), inner);
      && Requests(after) == Requests(q) && after.limit == q.limit
      && (Partials(q) != [] ==>
            after.waiting == inner.waiting + q.waiting && after.skipped == inner.skipped + q.skipped)
  {
    OpenedRequests(q);
    ClosedRequests(SavedOf(q), inner);
  }

  lemma ClosedRequests(saved: Saved, inner: Queues)
    ensures Requests(Closed(saved, inner)) ==
            Requests(inner) + multiset(saved.decodes)
            + (if saved.hasPartial then multiset(saved.waiting) + multiset(saved.skipped) else multiset{})
  {
    JoinedRequests(inner.running, saved.decodes);
    JoinedRequests(inner.waiting, saved.waiting);
    JoinedRequests(inner.skipped, saved.skipped);
  }

  lemma JoinedRequests(a: seq<nat>, b: seq<nat>)
    ensures multiset(a + b) == multiset(a) + multiset(b)
  {
  }

  lemma {:induction false} FilterConcat(a: seq<nat>, b: seq<nat>, chunk: set<nat>, keep: bool)
    ensures Filter(a + b, chunk, keep) == Filter(a, chunk, keep) + Filter(b, chunk, keep)
  {
    if a == [] {
      assert a + b == b;
    } else {
      assert (a + b)[1..] == a[1..] + b;
      FilterConcat(a[1..], b, chunk, keep);
    }
  }

  lemma {:induction false} FilterEmpty(ids: seq<nat>, chunk: set<nat>)
    requires forall i :: 0 <= i < |ids| ==> ids[i] !in chunk
    ensures Filter(ids, chunk, true) == []
  {
    if ids != [] {
      FilterEmpty(ids[1..], chunk);
    }
  }

  /** The hidden decodes stay decodes: the inner scheduler does not see them. */
  lemma HiddenDecodesStay(q: Queues, inner: Queues)
    requires NoDuplicates(q) && InnerStep(Opened(q), inner)
    ensures Filter(Decodes(q), inner.chunk, true) == []
  {
    OpenedRequests(q);
    var decodes := Decodes(q);
    forall i | 0 <= i < |decodes| ensures decodes[i] !in inner.chunk {
      assert decodes[i] in multiset(decodes);
      assert Requests(q)[decodes[i]] == 1;
      assert decodes[i] !in Requests(Opened(q));
    }
    FilterEmpty(decodes, inner.chunk);
  }

  /** A prefill step keeps the scheduler healthy. */
  lemma SinglePrefillKeepsHealthy(q: Queues, inner: Queues)
    requires Healthy(q) && InnerStep(Opened(q), inner)
    ensures Healthy(Closed(SavedOf(q), inner))
  {
    SinglePrefillConserves(q, inner);
    HiddenDecodesStay(q, inner);
    OpenedRequests(q);
    FilterConcat(inner.running, Decodes(q), inner.chunk, true);
  }

  /**
   * Everything else that happens between prefill steps: decode steps, preemptions, completions and arrivals.
   * None of them adds to the running requests or makes a running one a partial prefill.
   */
  ghost predicate OtherStep(q: Queues, next: Queues) {
    && next.limit == q.limit && NoDuplicates(next)
    && multiset(next.running) <= multiset(q.running)
    && forall id :: id in next.running && id in next.chunk ==> id in q.chunk
  }

  datatype Op = Prefill(inner: Queues) | Other(next: Queues)

  ghost predicate Allowed(q: Queues, op: Op) {
    match op
    case Prefill(inner) => |Partials(q)| <= 1 ==> InnerStep(Opened(q), inner)
    case Other(next) => OtherStep(q, next)
  }

  /** The next queues, or None when `single_prefill` raises its RuntimeError. */
  function Advance(q: Queues, op: Op): Option<Queues> {
    match op
    case Prefill(inner) => if |Partials(q)| > 1 then None else Some(Closed(SavedOf(q), inner))
    case Other(next) => Some(next)
  }

  lemma PartialCount(ids: seq<nat>, chunk: set<nat>)
    ensures multiset(Filter(ids, chunk, true)) <= multiset(ids)
    ensures forall id :: id in chunk ==> multiset(Filter(ids, chunk, true))[id] == multiset(ids)[id]
  {
    FilterSplits(ids, chunk);
    var rest := Filter(ids, chunk, false);
    assert forall id :: id in chunk ==> id !in multiset(rest);
  }

  lemma SubmultisetSize(a: seq<nat>, b: seq<nat>)
    requires multiset(a) <= multiset(b)
    ensures |a| <= |b|
  {
    assert multiset(b) == multiset(a) + (multiset(b) - multiset(a));
    assert |multiset(a)| <= |multiset(b)|;
  }

  lemma OtherKeepsHealthy(q: Queues, next: Queues)
    requires Healthy(q) && OtherStep(q, next)
    ensures Healthy(next)
  {
    SubmultisetSize(next.running, q.running);
    PartialCount(next.running, next.chunk);
    PartialCount(q.running, q.chunk);
    var before, after := multiset(Partials(q)), multiset(Partials(next));
    forall id | id in after ensures after[id] <= before[id] {
      assert id in next.running;
    }
    SubmultisetSize(Partials(next), Partials(q));
  }

  /** The states of a run of the scheduler. */
  ghost predicate IsRun(states: seq<Queues>, ops: seq<Op>) {
    && |states| == |ops| + 1 && Healthy(states[0])
    && forall k :: 0 <= k < |ops| ==> Allowed(states[k], ops[k]) && Advance(states[k], ops[k]) == Some(states[k + 1])
  }

  /** In every run the scheduler stays healthy, so the RuntimeError of `single_prefill` cannot be reached. */
  lemma {:induction false} RunsStayHealthy(states: seq<Queues>, ops: seq<Op>, k: nat, op: Op)
    requires IsRun(states, ops) && k <= |ops|
    ensures Healthy(states[k]) && Advance(states[k], op).Some?
  {
    if k > 0 {
      RunsStayHealthy(states, ops, k - 1, op);
      assert Advance(states[k - 1], ops[k - 1]) == Some(states[k - 1 + 1]);
      match ops[k - 1]
      case Prefill(inner) => SinglePrefillKeepsHealthy(states[k - 1], inner);
      case Other(next) => OtherKeepsHealthy(states[k - 1], next);
    }
  }
}
