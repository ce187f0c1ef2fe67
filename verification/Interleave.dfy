/**
 * Request epochs around the continuation controller (optimisation/sim/interleave.py, the ledger part): identity
 * capture, submission and release, and what every run of them keeps.
 */
module Interleave {
  import opened Continuation
  import opened Prefill
  import opened Results

  /** A ledger entry: the request's epoch and whether its prefill has completed. */
  datatype Generation = Generation(epoch: int, done: bool)

  /** The captured model input of one prefill submission. */
  datatype ModelInput = ModelInput(identity: Option<seq<Owner>>, deviceSampling: bool, perLayerTables: bool,
                                   marker: Option<seq<bool>>, wellFormed: bool, tokens: seq<int>, pages: seq<int>,
                                   start: int, end: int, slot: int)

  datatype RunnerState<S, P, H> = RunnerState(generations: map<string, Generation>, next: nat, system: System<S, P, H>)

  // ----- Step functions

  /** `identities`: exactly one request; an unknown one gets a new, larger epoch. */
  function IdentifyStep<S, P, H>(r: RunnerState<S, P, H>, ids: seq<string>)
    : (RunnerState<S, P, H>, Result<seq<Owner>>)
  {
    if |ids| != 1 then (r, Raised)
    else if ids[0] in r.generations then (r, Ok([Owner(ids[0], r.generations[ids[0]].epoch)]))
    else (r.(generations := r.generations[ids[0] := Generation(r.next + 1, false)], next := r.next + 1),
          Ok([Owner(ids[0], r.next + 1)]))
  }

  /** `continuation_pending`. */
  predicate Pending<S, P, H>(r: RunnerState<S, P, H>, id: string) {
    id in r.generations && !r.generations[id].done
  }

  /** The checks of `submit` before any work. */
  predicate Submittable<S, P, H>(cfg: Config, budget: nat, r: RunnerState<S, P, H>, i: ModelInput) {
    && i.identity.Some? && |i.identity.value| == 1
    && (var owner := i.identity.value[0];
        owner.id in r.generations && r.generations[owner.id] == Generation(owner.epoch, false))
    && !i.deviceSampling && !i.perLayerTables
    && i.marker.Some? && |i.marker.value| == 1
    && budget == ChunkSize(cfg.g)
  }

  function ForwardInput(i: ModelInput): Input
    requires i.identity.Some? && |i.identity.value| == 1 && i.marker.Some? && |i.marker.value| == 1
  {
    Input(i.wellFormed, i.tokens, i.pages, i.start, i.end, i.slot, !i.marker.value[0], i.identity.value[0])
  }

  /** `submit`: a stale or completed identity never reaches the controller; the last step completes the entry. */
  function SubmitStep<S, P, H, L>(cfg: Config, m: Model<S, P, H, L>, budget: nat, r: RunnerState<S, P, H>,
                                  i: ModelInput, wait: bool, f: Faults<S, P, H>)
    : (result: (RunnerState<S, P, H>, Result<Option<L>>))
    requires ValidConfig(cfg) && Fitted(cfg, r.system.backend.device) && Plausible(cfg, f, r.system.backend.device)
    ensures Fitted(cfg, result.0.system.backend.device)
  {
    if !Submittable(cfg, budget, r, i) || wait then (r, Raised)
    else
      var (system, output) := ForwardStep(cfg, m, r.system, ForwardInput(i), f);
      var owner := i.identity.value[0];
      if output.Raised? || i.marker.value[0] then (r.(system := system), output)
      else (r.(system := system, generations := r.generations[owner.id := Generation(owner.epoch, true)]), output)
  }

  /** `release_requests`: cancel the live owner if it is dead, then forget every dead request. */
  function ReleaseStep<S, P, H>(r: RunnerState<S, P, H>, dead: set<string>, wait: bool, fault: bool)
    : (RunnerState<S, P, H>, bool)
  {
    if r.system.active.Some? && r.system.active.value.owner.id in dead then
      if wait then (r, false)
      else
        var (system, ok) := CancelStep(r.system, r.system.active.value.owner, fault);
        if ok then (r.(system := system, generations := r.generations - dead), true)
        else (r.(system := system), false)
    else (r.(generations := r.generations - dead), true)
  }

  // ----- The runner

  class Runner<S(!new), P(!new), H(!new), L(!new)> {
    const controller: ContinuationController<S, P, H, L>
    const budget: nat
    var generations: map<string, Generation>
    var nextGeneration: nat

    ghost predicate Valid()
      reads this, controller, controller.backend
    {
      controller.Valid()
    }

    ghost function View(): RunnerState<S, P, H>
      reads this, controller, controller.backend
    {
      RunnerState(generations, nextGeneration, controller.View())
    }

    constructor (controller: ContinuationController<S, P, H, L>, budget: nat)
      requires controller.Valid()
      ensures Valid() && this.controller == controller && this.budget == budget
      ensures View() == RunnerState(map[], 0, controller.View())
    {
      this.controller, this.budget := controller, budget;
      generations, nextGeneration := map[], 0;
    }

    method Identities(ids: seq<string>) returns (result: Result<seq<Owner>>)
      requires Valid()
      modifies this
      ensures Valid() && (View(), result) == IdentifyStep(old(View()), ids)
    {
      if |ids| != 1 {
        return Raised;
      }
      var id := ids[0];
      if id !in generations {
        nextGeneration := nextGeneration + 1;
        generations := generations[id := Generation(nextGeneration, false)];
      }
      result := Ok([Owner(id, generations[id].epoch)]);
    }

    method ContinuationPending(id: string) returns (pending: bool)
      requires Valid()
      ensures pending == Pending(View(), id)
    {
      pending := id in generations && !generations[id].done;
    }

    method Submit(i: ModelInput, wait: bool, f: Faults<S, P, H>) returns (output: Result<Option<L>>)
      requires Valid() && Plausible(controller.backend.cfg, f, controller.backend.device)
      modifies this, controller, controller.backend
      ensures Valid()
      ensures (View(), output) ==
              SubmitStep(controller.backend.cfg, controller.backend.model, budget, old(View()), i, wait, f)
    {
      if i.identity.None? || |i.identity.value| != 1 {
        return Raised;
      }
      var owner := i.identity.value[0];
      if owner.id !in generations || generations[owner.id] != Generation(owner.epoch, false) {
        return Raised;
      }
      if i.deviceSampling || i.perLayerTables || i.marker.None? || |i.marker.value| != 1 {
        return Raised;
      }
      if budget != ChunkSize(controller.backend.cfg.g) || wait {
        return Raised;
      }
      output := controller.Forward(ForwardInput(i), f);
      if output.Ok? && !i.marker.value[0] {
        generations := generations[owner.id := Generation(owner.epoch, true)];
      }
    }

    method ReleaseRequests(dead: set<string>, wait: bool, fault: bool) returns (ok: bool)
      requires Valid()
      modifies this, controller, controller.backend
      ensures Valid() && (View(), ok) == ReleaseStep(old(View()), dead, wait, fault)
    {
      if controller.active.Some? && controller.active.value.owner.id in dead {
        if wait {
          return false;
        }
        ok := controller.Cancel(controller.active.value.owner, fault);
        if !ok {
          return false;
        }
      }
      generations := generations - dead;
      ok := true;
    }
  }

  // ----- The history

  /** Who holds the scratch after an event. */
  datatype Status = Idle | Holding(owner: Owner, end: nat) | Broken(owner: Owner)

  function After(e: Event): Status {
    match e
    case Cancelled(_) => Idle
    case Attempt(owner, _, end, final, ok, _) =>
      if !ok then Broken(owner) else if final then Idle else Holding(owner, end)
  }

  function StatusOf(log: seq<Event>): Status {
    if log == [] then Idle else After(log[|log| - 1])
  }

  /** A free scratch is taken at position 0 by an owner never seen before; a held one continues or is cancelled. */
  predicate AllowedAt(log: seq<Event>, j: nat)
    requires j < |log|
  {
    var before := if j == 0 then Idle else After(log[j - 1]);
    match log[j]
    case Attempt(owner, start, end, _, _, _) =>
      start < end &&
      (match before
       case Idle => start == 0 && forall i :: 0 <= i < j ==> log[i].owner != owner
       case Holding(holder, at) => owner == holder && start == at
       case Broken(_) => false)
    case Cancelled(owner) => !before.Idle? && before.owner == owner
  }

  predicate Lawful(log: seq<Event>) {
    forall j :: 0 <= j < |log| ==> AllowedAt(log, j)
  }

  lemma LawfulExtends(log: seq<Event>, e: Event)
    requires Lawful(log) && AllowedAt(log + [e], |log|)
    ensures Lawful(log + [e]) && StatusOf(log + [e]) == After(e)
  {
    forall j | 0 <= j < |log + [e]| ensures AllowedAt(log + [e], j) {
      if j < |log| {
        assert AllowedAt(log, j);
      }
    }
  }

  /**
   * Two runs of one owner enclose only that owner's successful intermediate runs, each starting where the last ended.
   */
  lemma {:induction false} OwnerRunsAreContiguous(log: seq<Event>, i: nat, j: nat)
    requires Lawful(log) && i < j < |log| && log[i].owner == log[j].owner && log[j].Attempt?
    ensures forall k :: i <= k < j ==>
              log[k].Attempt? && log[k].owner == log[j].owner && log[k].ok && !log[k].final
    ensures forall k :: i < k <= j ==> log[k].Attempt? && log[k - 1].end == log[k].start
  {
    assert AllowedAt(log, j);
    if i < j - 1 {
      OwnerRunsAreContiguous(log, i, j - 1);
    }
  }

  /** An owner's first run starts at position 0. */
  lemma FirstRunStartsAtZero(log: seq<Event>, j: nat)
    requires Lawful(log) && j < |log| && log[j].Attempt? && forall i :: 0 <= i < j ==> log[i].owner != log[j].owner
    ensures log[j].start == 0
  {
    assert AllowedAt(log, j);
    if j > 0 {
      assert log[j - 1].owner != log[j].owner;
    }
  }

  /** After its last step, or once cancelled, an owner is never seen again. */
  lemma {:induction false} ClosedOwnerNeverReturns(log: seq<Event>, i: nat, j: nat)
    requires Lawful(log) && i < j < |log| && After(log[i]).Idle?
    ensures log[j].owner != log[i].owner
  {
    assert AllowedAt(log, j);
    if i < j - 1 {
      ClosedOwnerNeverReturns(log, i, j - 1);
    }
  }

  /** Nothing of an owner runs after its final attempt, failed or not, so it has at most one. */
  lemma OneFinalAttempt(log: seq<Event>, i: nat, j: nat)
    requires Lawful(log) && i < |log| && j < |log|
    requires log[i].Attempt? && log[j].Attempt? && log[i].owner == log[j].owner && log[i].final
    ensures j <= i && (log[j].final ==> j == i)
  {
    if i < j {
      OwnerRunsAreContiguous(log, i, j);
    } else if j < i {
      OwnerRunsAreContiguous(log, j, i);
    }
  }

  /** After a failed run the next event is that owner's cancellation. */
  lemma FailureBlocksUntilCancelled(log: seq<Event>, j: nat)
    requires Lawful(log) && j + 1 < |log| && log[j].Attempt? && !log[j].ok
    ensures log[j + 1] == Cancelled(log[j].owner)
  {
    assert AllowedAt(log, j + 1);
  }

  // ----- The invariant of all runs

  predicate Seen(log: seq<Event>, owner: Owner) {
    exists j :: 0 <= j < |log| && log[j].owner == owner
  }

  /** Controller fields, ledger and history agree. */
  ghost predicate Invariant<S, P, H>(r: RunnerState<S, P, H>) {
    var s := r.system;
    && Lawful(s.log)
    && (match StatusOf(s.log)
        case Idle => s.active.None? && !s.poisoned
        case Holding(owner, end) => s.active.Some? && !s.poisoned && s.active.value.owner == owner &&
            s.active.value.end == end
        case Broken(owner) => s.active.Some? && s.poisoned && s.active.value.owner == owner)
    && (s.active.Some? ==> Unfinished(r, s.active.value.owner))
    && (forall id :: id in r.generations ==> r.generations[id].epoch <= r.next)
    && (forall j :: 0 <= j < |s.log| ==> s.log[j].owner.epoch <= r.next)
    && (forall id :: id in r.generations ==> Untouched(r, id))
  }

  /** The owner is a ledger entry that has not completed. */
  predicate Unfinished<S, P, H>(r: RunnerState<S, P, H>, owner: Owner) {
    owner.id in r.generations && r.generations[owner.id] == Generation(owner.epoch, false)
  }

  /** An unfinished entry that does not hold the scratch has never run. */
  predicate Untouched<S, P, H>(r: RunnerState<S, P, H>, id: string)
    requires id in r.generations
  {
    var owner := Owner(id, r.generations[id].epoch);
    r.generations[id].done || !Seen(r.system.log, owner) ||
    (r.system.active.Some? && r.system.active.value.owner == owner)
  }

  lemma IdentifyKeepsInvariant<S, P, H>(r: RunnerState<S, P, H>, ids: seq<string>)
    requires Invariant(r)
    ensures Invariant(IdentifyStep(r, ids).0)
  {
    var next := IdentifyStep(r, ids).0;
    forall id | id in next.generations ensures Untouched(next, id) {
      if id in r.generations {
        assert Untouched(r, id);
      }
    }
  }

  lemma SeenExtends(log: seq<Event>, e: Event, owner: Owner)
    ensures Seen(log + [e], owner) <==> Seen(log, owner) || e.owner == owner
  {
    if e.owner == owner {
      assert (log + [e])[|log|].owner == owner;
    }
    if Seen(log, owner) {
      var j :| 0 <= j < |log| && log[j].owner == owner;
      assert (log + [e])[j].owner == owner;
    }
  }

  /** A call of `forward` that reaches the backend: one event, and fields that follow from it. */
  ghost predicate Forwarded<S, P, H>(s: System<S, P, H>, next: System<S, P, H>, e: Event) {
    && e.Attempt? && e.start < e.end && next.log == s.log + [e] && !s.poisoned
    && (if s.active.None? then e.start == 0 else s.active.value.owner == e.owner && s.active.value.end == e.start)
    && next.poisoned == !e.ok
    && (if e.ok && e.final then next.active.None? else next.active.Some? && next.active.value.owner == e.owner)
    && (e.ok && !e.final ==> next.active.value.end == e.end)
  }

  lemma ForwardEffect<S, P, H, L>(cfg: Config, m: Model<S, P, H, L>, s: System<S, P, H>, i: Input,
                                  f: Faults<S, P, H>)
    requires ValidConfig(cfg) && Fitted(cfg, s.backend.device) && Plausible(cfg, f, s.backend.device)
    ensures var (next, result) := ForwardStep(cfg, m, s, i, f);
      (next == s && result.Raised?) ||
      (|next.log| == |s.log| + 1 && Forwarded(s, next, next.log[|s.log|])
       && next.log[|s.log|].owner == i.owner && next.log[|s.log|].final == i.final &&
           next.log[|s.log|].ok == result.Ok?)
  {
  }

  lemma ForwardedKeepsInvariant<S, P, H>(r: RunnerState<S, P, H>, next: RunnerState<S, P, H>, e: Event)
    requires Invariant(r) && Forwarded(r.system, next.system, e) && Unfinished(r, e.owner) && next.next == r.next
    requires next.generations == if e.ok && e.final then r.generations[e.owner.id := Generation(e.owner.epoch, true)]
                                 else r.generations
    ensures Invariant(next)
  {
    var log := r.system.log;
    assert Untouched(r, e.owner.id);
    LawfulExtends(log, e);
    forall id | id in next.generations ensures Untouched(next, id) {
      assert Untouched(r, id);
      SeenExtends(log, e, Owner(id, next.generations[id].epoch));
    }
  }

  lemma SubmitKeepsInvariant<S, P, H, L>(cfg: Config, m: Model<S, P, H, L>, budget: nat, r: RunnerState<S, P, H>,
                                         i: ModelInput, wait: bool, f: Faults<S, P, H>)
    requires ValidConfig(cfg) && Fitted(cfg, r.system.backend.device) && Plausible(cfg, f, r.system.backend.device)
    requires Invariant(r)
    ensures Invariant(SubmitStep(cfg, m, budget, r, i, wait, f).0)
  {
    if Submittable(cfg, budget, r, i) && !wait {
      ForwardEffect(cfg, m, r.system, ForwardInput(i), f);
      var (system, output) := ForwardStep(cfg, m, r.system, ForwardInput(i), f);
      var next := SubmitStep(cfg, m, budget, r, i, wait, f).0;
      if system == r.system && output.Raised? {
        assert next == r;
      } else {
        ForwardedKeepsInvariant(r, next, system.log[|r.system.log|]);
      }
    }
  }

  lemma ReleaseKeepsInvariant<S, P, H>(r: RunnerState<S, P, H>, dead: set<string>, wait: bool, fault: bool)
    requires Invariant(r)
    ensures Invariant(ReleaseStep(r, dead, wait, fault).0)
  {
    var next := ReleaseStep(r, dead, wait, fault).0;
    if |next.system.log| > |r.system.log| {
      var log, e := r.system.log, next.system.log[|r.system.log|];
      assert next.system.log == log + [e];
      LawfulExtends(log, e);
      forall id | id in next.generations ensures Untouched(next, id) {
        assert Untouched(r, id);
        SeenExtends(log, e, Owner(id, next.generations[id].epoch));
      }
    } else {
      forall id | id in next.generations ensures Untouched(next, id) {
        assert Untouched(r, id);
      }
    }
  }

  // ----- Whole runs

  datatype Op<S, P, H> =
    | Identify(ids: seq<string>)
    | Submit(input: ModelInput, wait: bool, faults: Faults<S, P, H>)
    | Release(dead: set<string>, wait: bool, fault: bool)

  /** Any input may be submitted at any time, stale or not; only the shape of the faults is constrained. */
  ghost predicate Enabled<S, P, H>(cfg: Config, r: RunnerState<S, P, H>, op: Op<S, P, H>) {
    Fitted(cfg, r.system.backend.device) && (op.Submit? ==> Plausible(cfg, op.faults, r.system.backend.device))
  }

  ghost function Next<S, P, H, L>(cfg: Config, m: Model<S, P, H, L>, budget: nat, r: RunnerState<S, P, H>,
                                  op: Op<S, P, H>): RunnerState<S, P, H>
    requires ValidConfig(cfg) && Enabled(cfg, r, op)
  {
    match op
    case Identify(ids) => IdentifyStep(r, ids).0
    case Submit(i, wait, f) => SubmitStep(cfg, m, budget, r, i, wait, f).0
    case Release(dead, wait, fault) => ReleaseStep(r, dead, wait, fault).0
  }

  ghost predicate IsRun<S, P, H, L>(cfg: Config, m: Model<S, P, H, L>, budget: nat, states: seq<RunnerState<S, P, H>>,
                                    ops: seq<Op<S, P, H>>)
    requires ValidConfig(cfg)
  {
    && |states| == |ops| + 1
    && states[0].generations == map[] && states[0].next == 0
    && states[0].system.active.None? && !states[0].system.poisoned && states[0].system.log == []
    && (forall k :: 0 <= k < |ops| ==> Follows(cfg, m, budget, states, ops, k))
  }

  /** Step `k` of a run. */
  ghost predicate Follows<S, P, H, L>(cfg: Config, m: Model<S, P, H, L>, budget: nat, states: seq<RunnerState<S, P, H>>,
                                      ops: seq<Op<S, P, H>>, k: nat)
    requires ValidConfig(cfg) && k < |ops| == |states| - 1
  {
    Enabled(cfg, states[k], ops[k]) && states[k + 1] == Next(cfg, m, budget, states[k], ops[k])
  }

  /**
   * Every state of every run has a lawful history, agrees with it, and has an unfinished ledger entry for a
   * live owner.
   */
  lemma {:induction false} RunsKeepInvariant<S, P, H, L>(cfg: Config, m: Model<S, P, H, L>, budget: nat,
                                                         states: seq<RunnerState<S, P, H>>, ops: seq<Op<S, P, H>>,
                                                         k: nat)
    requires ValidConfig(cfg) && IsRun(cfg, m, budget, states, ops) && k <= |ops|
    ensures Invariant(states[k])
  {
    if k > 0 {
      RunsKeepInvariant(cfg, m, budget, states, ops, k - 1);
      assert Follows(cfg, m, budget, states, ops, k - 1);
      match ops[k - 1]
      case Identify(ids) => IdentifyKeepsInvariant(states[k - 1], ids);
      case Submit(i, wait, f) => SubmitKeepsInvariant(cfg, m, budget, states[k - 1], i, wait, f);
      case Release(dead, wait, fault) => ReleaseKeepsInvariant(states[k - 1], dead, wait, fault);
    }
  }

  // ----- Retired epochs

  /** An epoch handed out earlier that is not, or no longer, the unfinished ledger entry of its request. */
  predicate Retired<S, P, H>(r: RunnerState<S, P, H>, owner: Owner) {
    owner.epoch <= r.next && !Unfinished(r, owner)
  }

  /** `later` continues `earlier` without any event of the owner. */
  predicate SilentSince(earlier: seq<Event>, later: seq<Event>, owner: Owner) {
    earlier <= later && forall j :: |earlier| <= j < |later| ==> later[j].owner != owner
  }

  /** A successful final submission retires its epoch. */
  lemma CompletionRetires<S, P, H, L>(cfg: Config, m: Model<S, P, H, L>, budget: nat, r: RunnerState<S, P, H>,
                                      i: ModelInput, wait: bool, f: Faults<S, P, H>)
    requires ValidConfig(cfg) && Fitted(cfg, r.system.backend.device) && Plausible(cfg, f, r.system.backend.device)
    requires Invariant(r) && SubmitStep(cfg, m, budget, r, i, wait, f).1.Ok?
    ensures Submittable(cfg, budget, r, i)
    ensures !i.marker.value[0] ==> Retired(SubmitStep(cfg, m, budget, r, i, wait, f).0, i.identity.value[0])
  {
    assert Unfinished(r, i.identity.value[0]);
  }

  /** A successful release retires every epoch its dead requests ever had, whether or not they held the scratch. */
  lemma ReleaseRetires<S, P, H>(r: RunnerState<S, P, H>, dead: set<string>, wait: bool, fault: bool, owner: Owner)
    requires ReleaseStep(r, dead, wait, fault).1 && owner.id in dead && owner.epoch <= r.next
    ensures Retired(ReleaseStep(r, dead, wait, fault).0, owner)
  {
  }

  /** A new epoch for a request retires all its earlier ones. */
  lemma RenewalRetires<S, P, H>(r: RunnerState<S, P, H>, id: string, owner: Owner)
    requires Invariant(r) && owner.id == id && owner.epoch <= r.next
    requires IdentifyStep(r, [id]).1 != Ok([owner])
    ensures Retired(IdentifyStep(r, [id]).0, owner)
  {
  }

  /** Every step keeps an epoch retired and gives it no event. */
  lemma RetiredStep<S, P, H, L>(cfg: Config, m: Model<S, P, H, L>, budget: nat, r: RunnerState<S, P, H>,
                                op: Op<S, P, H>, owner: Owner)
    requires ValidConfig(cfg) && Enabled(cfg, r, op) && Invariant(r) && Retired(r, owner)
    ensures var next := Next(cfg, m, budget, r, op);
      Retired(next, owner) && SilentSince(r.system.log, next.system.log, owner)
  {
    match op
    case Identify(ids) =>
    case Submit(i, wait, f) => RetiredSubmit(cfg, m, budget, r, i, wait, f, owner);
    case Release(dead, wait, fault) => RetiredRelease(r, dead, wait, fault, owner);
  }

  lemma RetiredSubmit<S, P, H, L>(cfg: Config, m: Model<S, P, H, L>, budget: nat, r: RunnerState<S, P, H>,
                                  i: ModelInput, wait: bool, f: Faults<S, P, H>, owner: Owner)
    requires ValidConfig(cfg) && Fitted(cfg, r.system.backend.device) && Plausible(cfg, f, r.system.backend.device)
    requires Retired(r, owner)
    ensures var next := SubmitStep(cfg, m, budget, r, i, wait, f).0;
      Retired(next, owner) && SilentSince(r.system.log, next.system.log, owner)
  {
    if Submittable(cfg, budget, r, i) && !wait {
      ForwardEffect(cfg, m, r.system, ForwardInput(i), f);
    }
  }

  lemma RetiredRelease<S, P, H>(r: RunnerState<S, P, H>, dead: set<string>, wait: bool, fault: bool, owner: Owner)
    requires Invariant(r) && Retired(r, owner)
    ensures var next := ReleaseStep(r, dead, wait, fault).0;
      Retired(next, owner) && SilentSince(r.system.log, next.system.log, owner)
  {
  }

  /** Any submission under a retired epoch raises and changes nothing. */
  lemma RetiredSubmissionRaises<S, P, H, L>(cfg: Config, m: Model<S, P, H, L>, budget: nat, r: RunnerState<S, P, H>,
                                            i: ModelInput, wait: bool, f: Faults<S, P, H>, owner: Owner)
    requires ValidConfig(cfg) && Fitted(cfg, r.system.backend.device) && Plausible(cfg, f, r.system.backend.device)
    requires Retired(r, owner) && i.identity == Some([owner])
    ensures SubmitStep(cfg, m, budget, r, i, wait, f) == (r, Raised)
  {
  }

  /** In every run a retired epoch, completed, released or replaced, stays so for good, and no event of it follows. */
  lemma {:induction false} RetiredEpochNeverRuns<S, P, H, L>(cfg: Config, m: Model<S, P, H, L>, budget: nat,
                                                             states: seq<RunnerState<S, P, H>>,
                                                             ops: seq<Op<S, P, H>>, j: nat, k: nat, owner: Owner)
    requires ValidConfig(cfg) && IsRun(cfg, m, budget, states, ops) && j <= k <= |ops| && Retired(states[j], owner)
    ensures Retired(states[k], owner) && SilentSince(states[j].system.log, states[k].system.log, owner)
    decreases k - j
  {
    if j < k {
      RetiredEpochNeverRuns(cfg, m, budget, states, ops, j, k - 1, owner);
      RetiredNext(cfg, m, budget, states, ops, k - 1, owner);
      SilentChain(states[j].system.log, states[k - 1].system.log, states[k].system.log, owner);
    }
  }

  lemma RetiredNext<S, P, H, L>(cfg: Config, m: Model<S, P, H, L>, budget: nat, states: seq<RunnerState<S, P, H>>,
                                ops: seq<Op<S, P, H>>, k: nat, owner: Owner)
    requires ValidConfig(cfg) && IsRun(cfg, m, budget, states, ops) && k < |ops| && Retired(states[k], owner)
    ensures Retired(states[k + 1], owner) && SilentSince(states[k].system.log, states[k + 1].system.log, owner)
  {
    RunsKeepInvariant(cfg, m, budget, states, ops, k);
    assert Follows(cfg, m, budget, states, ops, k);
    RetiredStep(cfg, m, budget, states[k], ops[k], owner);
  }

  lemma SilentChain(a: seq<Event>, b: seq<Event>, c: seq<Event>, owner: Owner)
    requires SilentSince(a, b, owner) && SilentSince(b, c, owner)
    ensures SilentSince(a, c, owner)
  {
    assert forall j :: |a| <= j < |b| ==> c[j] == b[j];
  }

  /** In every run, whatever is submitted under an epoch that was retired before changes nothing. */
  lemma StaleSubmissionChangesNothing<S, P, H, L>(cfg: Config, m: Model<S, P, H, L>, budget: nat,
                                                  states: seq<RunnerState<S, P, H>>, ops: seq<Op<S, P, H>>, j: nat,
                                                  k: nat, owner: Owner)
    requires ValidConfig(cfg) && IsRun(cfg, m, budget, states, ops) && j <= k < |ops| && Retired(states[j], owner)
    requires ops[k].Submit? && ops[k].input.identity == Some([owner])
    ensures states[k + 1] == states[k]
  {
    RetiredEpochNeverRuns(cfg, m, budget, states, ops, j, k, owner);
    assert Follows(cfg, m, budget, states, ops, k);
    RetiredSubmissionRaises(cfg, m, budget, states[k], ops[k].input, ops[k].wait, ops[k].faults, owner);
  }

  /** After a successful release of its request, an epoch known by then never runs again in any run. */
  lemma ReleasedEpochNeverRuns<S, P, H, L>(cfg: Config, m: Model<S, P, H, L>, budget: nat,
                                           states: seq<RunnerState<S, P, H>>, ops: seq<Op<S, P, H>>, j: nat, k: nat,
                                           owner: Owner)
    requires ValidConfig(cfg) && IsRun(cfg, m, budget, states, ops) && j < k <= |ops|
    requires ops[j].Release? && ReleaseStep(states[j], ops[j].dead, ops[j].wait, ops[j].fault).1
    requires owner.id in ops[j].dead && owner.epoch <= states[j].next
    ensures Retired(states[k], owner) && SilentSince(states[j + 1].system.log, states[k].system.log, owner)
  {
    assert Follows(cfg, m, budget, states, ops, j);
    ReleaseRetires(states[j], ops[j].dead, ops[j].wait, ops[j].fault, owner);
    RetiredEpochNeverRuns(cfg, m, budget, states, ops, j + 1, k, owner);
  }

  // ----- The restart latch

  predicate Latched<S, P, H>(r: RunnerState<S, P, H>) {
    r.system.backend.restart || r.system.backend.failedDma
  }

  /** Events that did no device work. */
  predicate NoWork(events: seq<Event>) {
    forall j :: 0 <= j < |events| ==> events[j].Attempt? && !events[j].ok && !events[j].touched
  }

  /** Once latched, a step does no device work, frees no scratch and leaves the device as it is. */
  lemma LatchedStep<S, P, H, L>(cfg: Config, m: Model<S, P, H, L>, budget: nat, r: RunnerState<S, P, H>,
                                op: Op<S, P, H>)
    requires ValidConfig(cfg) && Enabled(cfg, r, op) && Latched(r)
    ensures var next := Next(cfg, m, budget, r, op);
      && Latched(next) && next.system.backend == r.system.backend
      && r.system.log <= next.system.log && NoWork(next.system.log[|r.system.log|..])
  {
  }

  lemma LatchedNext<S, P, H, L>(cfg: Config, m: Model<S, P, H, L>, budget: nat, states: seq<RunnerState<S, P, H>>,
                                ops: seq<Op<S, P, H>>, k: nat)
    requires ValidConfig(cfg) && IsRun(cfg, m, budget, states, ops) && k < |ops| && Latched(states[k])
    ensures Latched(states[k + 1]) && states[k + 1].system.backend == states[k].system.backend
    ensures states[k].system.log <= states[k + 1].system.log
    ensures NoWork(states[k + 1].system.log[|states[k].system.log|..])
  {
    assert Follows(cfg, m, budget, states, ops, k);
    LatchedStep(cfg, m, budget, states[k], ops[k]);
  }

  lemma NoWorkChain(a: seq<Event>, b: seq<Event>, c: seq<Event>)
    requires a <= b <= c && NoWork(b[|a|..]) && NoWork(c[|b|..])
    ensures a <= c && NoWork(c[|a|..])
  {
    assert c[|a|..] == b[|a|..] + c[|b|..];
  }

  lemma {:induction false} LatchHoldsForever<S, P, H, L>(cfg: Config, m: Model<S, P, H, L>, budget: nat,
                                                         states: seq<RunnerState<S, P, H>>, ops: seq<Op<S, P, H>>,
                                                         j: nat, k: nat)
    requires ValidConfig(cfg) && IsRun(cfg, m, budget, states, ops) && j <= k <= |ops| && Latched(states[j])
    ensures Latched(states[k]) && states[k].system.backend == states[j].system.backend
    ensures states[j].system.log <= states[k].system.log
    ensures NoWork(states[k].system.log[|states[j].system.log|..])
    decreases k - j
  {
    if j < k {
      LatchHoldsForever(cfg, m, budget, states, ops, j, k - 1);
      LatchedNext(cfg, m, budget, states, ops, k - 1);
      NoWorkChain(states[j].system.log, states[k - 1].system.log, states[k].system.log);
    }
  }
}
