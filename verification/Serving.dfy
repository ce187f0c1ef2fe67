/**
 * The scheduler, the runner and the continuation together: `single_prefill` and the ledger
 * (optimisation/sim/interleave.py), the controller (optimisation/sim/continuation.py), the patch that joins them to the
 * plugin (optimisation/sim/stage-plugin.py) and the plugin's own passes (scripts/ci/fixtures/vllm_tt_plugin_bf77cd63).
 */
module Serving {
  import opened Arithmetic
  import opened Continuation
  import opened ContinuationState
  import opened Interleave
  import opened Prefill
  import opened Results
  import opened Scheduler

  // ----- State

  /** The scheduler knows requests by number and the runner by name; its token budget is the captured chunk. */
  datatype Host = Host(cfg: Config, name: nat -> string)

  ghost predicate ValidHost(h: Host) {
    && ValidConfig(h.cfg) && (forall id: nat :: h.name(id) != "")
    && forall a: nat, b: nat :: h.name(a) == h.name(b) ==> a == b
  }

  function Names(h: Host, ids: set<nat>): (names: set<string>)
    ensures forall id :: id in ids ==> h.name(id) in names
  {
    set id | id in ids :: h.name(id)
  }

  /** A request as the scheduler sees it: its tokens, how many are computed, and the pages of those. */
  datatype Work = Work(tokens: seq<int>, computed: nat, pages: seq<int>)

  /**
   * `gone` are the requests that finished or were preempted and go into the next output; `lost` are those whose report
   * went with an output that was replaced; `holder` is the request that was last left in the middle of its prompt, or
   * failed, with no report of its end since.
   */
  datatype Engine<S, P, H> = Engine(queues: Queues, work: map<nat, Work>, gone: set<nat>, lost: set<nat>,
                                    holder: Option<nat>, runner: RunnerState<S, P, H>)

  /** What the scheduler gives the runner for one prefill step. */
  datatype Chunk = Chunk(id: nat, pages: seq<int>, slot: int)

  // ----- One prefill step

  /** A prompt within the model's limits, computed up to a chunk boundary but not to its end. */
  predicate Open(cfg: Config, w: Work)
    requires ValidConfig(cfg)
  {
    && w.computed < |w.tokens| <= cfg.maxLength && Remainder(w.computed, ChunkSize(cfg.g)) == 0
    && forall j :: 0 <= j < |w.tokens| ==> 0 <= w.tokens[j] < cfg.vocabulary
  }

  predicate Fresh(w: Work) { w.computed == 0 && w.pages == [] }

  /** With decodes hidden the whole token budget is the prefill's. */
  function EndOf(cfg: Config, w: Work): nat {
    if w.computed + ChunkSize(cfg.g) < |w.tokens| then w.computed + ChunkSize(cfg.g) else |w.tokens|
  }

  /** The block table keeps the pages of the computed positions and has distinct ones for those of the step. */
  predicate Paged(cfg: Config, w: Work, c: Chunk)
    requires ValidConfig(cfg)
  {
    var used := PagesFor(cfg.g, EndOf(cfg, w));
    && used <= |c.pages| && used <= cfg.pageCapacity && Mapped(c.pages[..used], cfg.physicalPages)
    && w.pages <= c.pages && 0 <= c.slot < cfg.maxSlots
  }

  function InputOf(cfg: Config, w: Work, c: Chunk, owner: Owner): ModelInput {
    var end := EndOf(cfg, w);
    ModelInput(Some([owner]), false, false, Some([end < |w.tokens|]), true, w.tokens[..end], c.pages, w.computed, end,
               c.slot)
  }

  /** The request after the step. */
  function Computed(cfg: Config, w: Work, c: Chunk): Work
    requires ValidConfig(cfg) && Paged(cfg, w, c)
  {
    Work(w.tokens, EndOf(cfg, w), c.pages[..PagesFor(cfg.g, EndOf(cfg, w))])
  }

  /** The controller's owner stands where the scheduler's request does. */
  predicate Matches(w: Work, a: Active) {
    && a.end == w.computed <= |w.tokens| && a.tokens == w.tokens[..w.computed] && a.pages == w.pages
  }

  /** The controller can take the request's next step: it is the owner's, or new with no owner there. */
  predicate Welcome(active: Option<Active>, w: Work, owner: Owner) {
    match active
    case None => Fresh(w)
    case Some(a) => a.owner == owner && Matches(w, a)
  }

  lemma WelcomeIsAccepted(cfg: Config, active: Option<Active>, w: Work, c: Chunk, owner: Owner)
    requires ValidConfig(cfg) && Open(cfg, w) && Paged(cfg, w, c) && Welcome(active, w, owner)
    requires owner.id != "" && owner.epoch >= 0
    ensures var i := ForwardInput(InputOf(cfg, w, c, owner));
      Admissible(cfg, i) && DistinctPages(cfg, i) && Continues(active, i)
  {
  }

  function NoFaults<S, P, H>(): Faults<S, P, H> {
    Faults(false, false, false, None, false, false, false, false, false, false, None, false)
  }

  /** No restart is required. */
  predicate Live<S, P, H>(s: System<S, P, H>) { !s.backend.restart && !s.backend.failedDma }

  /** An accepted step takes the scratch on, frees it, or leaves it poisoned with its owner. */
  lemma AcceptedOutcome<S, P, H, L>(cfg: Config, m: Model<S, P, H, L>, s: System<S, P, H>, i: Input,
                                    f: Faults<S, P, H>)
    requires ValidConfig(cfg) && Fitted(cfg, s.backend.device) && Plausible(cfg, f, s.backend.device)
    requires !s.poisoned && Admissible(cfg, i) && Continues(s.active, i)
    ensures var (next, result) := ForwardStep(cfg, m, s, i, f);
      && next.poisoned == result.Raised? && (result.Raised? ==> next.active.Some? && next.active.value.owner == i.owner)
      && (result.Ok? ==>
            next.active == if i.final then None
                           else Some(Active(i.owner, i.end, i.tokens[..i.end], i.pages[..PagesFor(cfg.g, i.end)])))
  {
  }

  /** It succeeds when no device operation fails. */
  lemma AcceptedSucceeds<S, P, H, L>(cfg: Config, m: Model<S, P, H, L>, s: System<S, P, H>, i: Input)
    requires ValidConfig(cfg) && Fitted(cfg, s.backend.device) && Live(s)
    requires !s.poisoned && Admissible(cfg, i) && Continues(s.active, i)
    ensures ForwardStep(cfg, m, s, i, NoFaults()).1.Ok? && Live(ForwardStep(cfg, m, s, i, NoFaults()).0)
  {
  }

  // ----- Passes of the scheduler

  datatype Op<S, P, H> =
    | Arrange(next: Queues, work: map<nat, Work>)
    | Decode(inner: Queues, restarts: map<nat, Work>, device: Device<S, P, H>)
    | Idle(inner: Queues)
    | Schedule(inner: Queues, chunk: Chunk, faults: Faults<S, P, H>)

  function Left(q: Queues, next: Queues): set<nat> { set id | id in q.running && id !in next.running }

  /** A decode-only pass hides the waiting queues and the partial prefill. */
  function DecodeOpened(q: Queues): Queues { Queues(Decodes(q), [], [], q.limit, q.chunk) }

  function DecodeClosed(q: Queues, inner: Queues): Queues {
    Queues(inner.running + Partials(q), inner.waiting + q.waiting, inner.skipped + q.skipped, q.limit, inner.chunk)
  }

  /** Lost requests that were waiting and are dropped: their end is reported after all. */
  function Dropped<S, P, H>(e: Engine<S, P, H>, next: Queues): set<nat> {
    set id | id in e.lost && (id in e.queues.waiting || id in e.queues.skipped)
             && id !in next.waiting && id !in next.skipped
  }

  /** Preempted requests start again. */
  function Restarted(work: map<nat, Work>, left: set<nat>): (restarted: map<nat, Work>)
    ensures forall id :: id in work ==> id in restarted
    ensures forall id :: id in work ==> restarted[id] == if id in left then Work(work[id].tokens, 0, []) else work[id]
  {
    map id | id in work :: if id in left then Work(work[id].tokens, 0, []) else work[id]
  }

  /** A pass took these requests off the running ones. */
  function Unscheduled<S, P, H>(e: Engine<S, P, H>, queues: Queues, work: map<nat, Work>, left: set<nat>)
    : Engine<S, P, H>
  {
    e.(queues := queues, work := work, gone := e.gone + left)
  }

  /** The output reaches the runner, which releases the requests it names. */
  function Reported<S, P, H>(h: Host, e: Engine<S, P, H>): (told: Engine<S, P, H>)
    ensures told.runner.system.backend.device == e.runner.system.backend.device
  {
    e.(gone := {}, lost := e.lost - e.gone,
       holder := if e.holder.Some? && e.holder.value in e.gone then None else e.holder,
       runner := ReleaseStep(e.runner, Names(h, e.gone), false, false).0)
  }

  /** The output is replaced by a decode-only one: the runner is told of nothing it named. */
  function Replaced<S, P, H>(e: Engine<S, P, H>): Engine<S, P, H> {
    e.(gone := {}, lost := e.lost + e.gone)
  }

  /** A prefill pass that scheduled nothing, before its output goes anywhere. */
  function Paused<S, P, H>(e: Engine<S, P, H>, inner: Queues): Engine<S, P, H> {
    var left := Left(Opened(e.queues), inner);
    Unscheduled(e, Closed(SavedOf(e.queues), inner), Restarted(e.work, left), left)
  }

  /** A decode-only pass, before its output goes anywhere. */
  function Decoding<S, P, H>(e: Engine<S, P, H>, inner: Queues, restarts: map<nat, Work>): Engine<S, P, H> {
    Unscheduled(e, DecodeClosed(e.queues, inner), e.work + restarts, Left(DecodeOpened(e.queues), inner))
  }

  /** The identity captured for the step. */
  function Identified<S, P, H>(h: Host, r: RunnerState<S, P, H>, id: nat): (result: (RunnerState<S, P, H>, Owner))
    ensures result.0.system == r.system
  {
    var (next, owners) := IdentifyStep(r, [h.name(id)]);
    (next, owners.value[0])
  }

  /** The runner, told who is gone, captures the identity and submits the step. */
  function Submission<S, P, H, L>(h: Host, m: Model<S, P, H, L>, told: Engine<S, P, H>, c: Chunk, f: Faults<S, P, H>)
    : (result: (RunnerState<S, P, H>, Result<Option<L>>))
    requires ValidConfig(h.cfg) && c.id in told.work && Fitted(h.cfg, told.runner.system.backend.device)
    requires Plausible(h.cfg, f, told.runner.system.backend.device)
    ensures Fitted(h.cfg, result.0.system.backend.device)
  {
    var (r, owner) := Identified(h, told.runner, c.id);
    SubmitStep(h.cfg, m, ChunkSize(h.cfg.g), r, InputOf(h.cfg, told.work[c.id], c, owner), false, f)
  }

  /** The submission passes every check on the way to the device. */
  ghost predicate Accepted<S, P, H>(h: Host, told: Engine<S, P, H>, c: Chunk)
    requires ValidConfig(h.cfg) && c.id in told.work
  {
    var (r, owner) := Identified(h, told.runner, c.id);
    var i := InputOf(h.cfg, told.work[c.id], c, owner);
    && Submittable(h.cfg, ChunkSize(h.cfg.g), r, i) && !r.system.poisoned
    && Admissible(h.cfg, ForwardInput(i)) && Continues(r.system.active, ForwardInput(i))
  }

  /** After a submission the request holds the scratch unless its prompt is done. */
  function Submitted<S, P, H, L>(h: Host, m: Model<S, P, H, L>, told: Engine<S, P, H>, inner: Queues, c: Chunk,
                                 f: Faults<S, P, H>): Engine<S, P, H>
    requires ValidConfig(h.cfg) && c.id in told.work && Fitted(h.cfg, told.runner.system.backend.device)
    requires Plausible(h.cfg, f, told.runner.system.backend.device) && Paged(h.cfg, told.work[c.id], c)
  {
    var w := told.work[c.id];
    var (r, result) := Submission(h, m, told, c, f);
    Engine(Closed(SavedOf(told.queues), inner), told.work[c.id := Computed(h.cfg, w, c)], {}, told.lost,
           if result.Raised? || EndOf(h.cfg, w) < |w.tokens| then Some(c.id) else None, r)
  }

  /**
   * What may happen. Between passes requests come, finish or are dropped, and none is preempted. A decode-only pass may
   * preempt decodes, which start again with the tokens they made. A prefill pass sees the partial prefill, or the
   * waiting requests if there is none; it may preempt, and schedules nothing, or one request by as much of its prompt
   * as the token budget allows.
   */
  ghost predicate Enabled<S, P, H>(h: Host, e: Engine<S, P, H>, op: Op<S, P, H>)
    requires ValidConfig(h.cfg)
  {
    match op
    case Arrange(next, work) => Arranged(h, e, next, work)
    case Decode(inner, restarts, device) =>
      && DecodePass(h, e, inner, restarts)
      && DecodeAllowed(Reported(h, Decoding(e, inner, restarts)).runner.system, device)
    case Idle(inner) => IdlePass(e, inner)
    case Schedule(inner, c, f) => SchedulePass(h, e, inner, c) && Plausible(h.cfg, f, e.runner.system.backend.device)
  }

  ghost predicate Arranged<S, P, H>(h: Host, e: Engine<S, P, H>, next: Queues, work: map<nat, Work>)
    requires ValidConfig(h.cfg)
  {
    && OtherStep(e.queues, next)
    && (forall id :: id in next.running ==> (id in next.chunk <==> id in e.queues.chunk))
    && (forall id :: id in Partials(next) && id in e.work ==> id in work && work[id] == e.work[id])
    && (forall id :: id in next.waiting || id in next.skipped ==>
          id !in e.queues.running && id in work && Open(h.cfg, work[id]) && Fresh(work[id]))
  }

  ghost predicate DecodePass<S, P, H>(h: Host, e: Engine<S, P, H>, inner: Queues, restarts: map<nat, Work>)
    requires ValidConfig(h.cfg)
  {
    && InnerStep(DecodeOpened(e.queues), inner) && (forall id :: id in inner.running ==> id !in inner.chunk)
    && restarts.Keys == Left(DecodeOpened(e.queues), inner)
    && forall id :: id in restarts ==> Open(h.cfg, restarts[id]) && Fresh(restarts[id])
  }

  ghost predicate IdlePass<S, P, H>(e: Engine<S, P, H>, inner: Queues) {
    && InnerStep(Opened(e.queues), inner)
    && forall id :: id in inner.running ==>
         id in Opened(e.queues).running && (id in inner.chunk <==> id in e.queues.chunk)
  }

  ghost predicate SchedulePass<S, P, H>(h: Host, e: Engine<S, P, H>, inner: Queues, c: Chunk)
    requires ValidConfig(h.cfg)
  {
    && InnerStep(Opened(e.queues), inner) && inner.running == [c.id] && c.id in e.work && Paged(h.cfg, e.work[c.id], c)
    && (c.id in inner.chunk <==> EndOf(h.cfg, e.work[c.id]) < |e.work[c.id].tokens|)
  }

  /**
   * The engine after it. The output of a prefill pass that schedules nothing is replaced by that of a decode-only pass,
   * a step of its own, whenever a decode runs.
   */
  ghost function Next<S, P, H, L>(h: Host, m: Model<S, P, H, L>, e: Engine<S, P, H>, op: Op<S, P, H>): Engine<S, P, H>
    requires ValidConfig(h.cfg) && Fitted(h.cfg, e.runner.system.backend.device) && Enabled(h, e, op)
  {
    match op
    case Arrange(next, work) =>
      e.(queues := next, work := work, gone := e.gone + Left(e.queues, next) + Dropped(e, next))
    case Decode(inner, restarts, device) =>
      var told := Reported(h, Decoding(e, inner, restarts));
      told.(runner := Decoded(told.runner, device))
    case Idle(inner) =>
      if Decodes(e.queues) != [] then Replaced(Paused(e, inner)) else Reported(h, Paused(e, inner))
    case Schedule(inner, c, f) => Submitted(h, m, Reported(h, e), inner, c, f)
  }

  function Decoded<S, P, H>(r: RunnerState<S, P, H>, device: Device<S, P, H>): RunnerState<S, P, H> {
    r.(system := r.system.(backend := r.system.backend.(device := device)))
  }

  // ----- The invariant

  /** The ledger knows exactly the running requests and those whose end the runner has not been told. */
  ghost predicate Ledger<S, P, H>(h: Host, e: Engine<S, P, H>) {
    && (forall id: nat ::
          h.name(id) in e.runner.generations <==> id in e.queues.running || id in e.gone || id in e.lost)
    && (forall id: nat :: h.name(id) in e.runner.generations && e.holder != Some(id) ==>
          e.runner.generations[h.name(id)].done)
    && forall s :: s in e.runner.generations ==> e.runner.generations[s].epoch >= 0
  }

  ghost predicate Waiting<S, P, H>(h: Host, e: Engine<S, P, H>)
    requires ValidConfig(h.cfg)
  {
    forall id :: id in e.queues.waiting || id in e.queues.skipped ==>
      id in e.work && Open(h.cfg, e.work[id]) && Fresh(e.work[id])
  }

  /** The holder owns the scratch; a partial prefill is the holder, and stands where its owner does if none failed. */
  predicate Held<S, P, H>(h: Host, e: Engine<S, P, H>)
    requires ValidConfig(h.cfg)
  {
    var s := e.runner.system;
    && (e.holder.Some? <==> s.active.Some?) && (s.poisoned ==> s.active.Some?)
    && (e.holder.Some? ==> s.active.value.owner.id == h.name(e.holder.value))
    && (Partials(e.queues) != [] ==>
          var id := Partials(e.queues)[0];
          e.holder == Some(id) && id in e.work && Open(h.cfg, e.work[id]))
    && (e.holder.Some? && e.holder.value in e.queues.running && !s.poisoned ==>
          Partials(e.queues) == [e.holder.value] && Matches(e.work[e.holder.value], s.active.value))
  }

  /** The runner agrees with its history, needs no restart, and has the device where its owner's tokens put it. */
  ghost predicate Sound<S, P, H, L>(h: Host, m: Model<S, P, H, L>, r: RunnerState<S, P, H>)
    requires ValidConfig(h.cfg)
  {
    Invariant(r) && Live(r.system) && Fitted(h.cfg, r.system.backend.device) && Faithful(h.cfg, m, r.system)
  }

  ghost predicate Good<S, P, H, L>(h: Host, m: Model<S, P, H, L>, e: Engine<S, P, H>)
    requires ValidConfig(h.cfg)
  {
    && Healthy(e.queues) && Sound(h, m, e.runner) && Ledger(h, e) && Waiting(h, e) && Held(h, e)
    && forall id :: id in e.queues.running ==> id !in e.gone && id !in e.lost
  }

  // ----- Queues

  lemma {:induction false} FilterHas(ids: seq<nat>, chunk: set<nat>, id: nat)
    requires id in ids && id in chunk
    ensures id in Filter(ids, chunk, true)
  {
    if ids[0] != id {
      FilterHas(ids[1..], chunk, id);
    }
  }

  /** The partial prefill is the running request in the middle of its prompt. */
  lemma PartialIs(q: Queues, id: nat)
    requires Healthy(q) && id in q.running && id in q.chunk
    ensures Partials(q) == [id]
  {
    FilterHas(q.running, q.chunk, id);
  }

  lemma NoPartial(q: Queues)
    requires forall id :: id in q.running ==> id !in q.chunk
    ensures Partials(q) == []
  {
    FilterEmpty(q.running, q.chunk);
  }

  /** A request runs or waits, not both. */
  lemma OnePlace(q: Queues, id: nat)
    requires NoDuplicates(q) && (id in q.waiting || id in q.skipped)
    ensures id !in q.running
  {
    assert id in Requests(q) && Requests(q)[id] == 1;
  }

  lemma RunsAs(q: Queues, id: nat)
    requires id in q.running
    ensures id in Partials(q) || id in Decodes(q)
  {
    FilterSplits(q.running, q.chunk);
    assert id in multiset(Partials(q)) + multiset(Decodes(q));
  }

  /** After a prefill step the partial prefill is the one the inner scheduler left. */
  lemma ClosedPartials(q: Queues, inner: Queues)
    requires Healthy(q) && InnerStep(Opened(q), inner)
    ensures Healthy(Closed(SavedOf(q), inner)) && Partials(Closed(SavedOf(q), inner)) == Partials(inner)
    ensures forall id :: id in inner.running ==> id in Closed(SavedOf(q), inner).running
    ensures forall id :: id in Decodes(q) ==> id in Closed(SavedOf(q), inner).running
  {
    SinglePrefillKeepsHealthy(q, inner);
    HiddenDecodesStay(q, inner);
    FilterConcat(inner.running, Decodes(q), inner.chunk, true);
  }

  lemma InnerNoDuplicates(q: Queues, inner: Queues)
    requires Healthy(q) && InnerStep(Opened(q), inner)
    ensures NoDuplicates(inner) && NoDuplicates(Opened(q))
  {
    OpenedRequests(q);
    var seen := Requests(Opened(q));
    forall id | id in seen ensures seen[id] == 1 {
      assert id in Requests(q) && Requests(q)[id] >= seen[id];
    }
    assert Requests(inner) == seen;
  }

  /** What waits after a prefill step waited before, or was preempted in it. */
  lemma WaitsAfter(q: Queues, inner: Queues, id: nat)
    requires Healthy(q) && InnerStep(Opened(q), inner)
    requires id in Closed(SavedOf(q), inner).waiting || id in Closed(SavedOf(q), inner).skipped
    ensures id in q.waiting || id in q.skipped || id in Left(Opened(q), inner)
  {
    if id in inner.waiting || id in inner.skipped {
      InnerNoDuplicates(q, inner);
      OnePlace(inner, id);
      assert id in Requests(inner) && id in Requests(Opened(q));
    }
  }

  lemma PartialLeft(q: Queues, inner: Queues, id: nat)
    requires Healthy(q) && id in Left(Opened(q), inner)
    ensures Partials(q) == [id]
  {
    assert id in Opened(q).running && Opened(q).running == Partials(q);
    PartialIs(q, id);
  }

  lemma RestartsFresh(cfg: Config, w: Work)
    requires ValidConfig(cfg) && Open(cfg, w)
    ensures Open(cfg, Work(w.tokens, 0, [])) && Fresh(Work(w.tokens, 0, []))
  {
  }

  // ----- Reports

  lemma NamesApart(h: Host, ids: set<nat>, id: nat)
    requires ValidHost(h)
    ensures h.name(id) in Names(h, ids) <==> id in ids
  {
  }

  /** The release of reported requests frees the scratch if its owner is among them, and always succeeds here. */
  lemma ReportedRunner<S, P, H, L>(h: Host, m: Model<S, P, H, L>, e: Engine<S, P, H>)
    requires ValidHost(h) && Sound(h, m, e.runner)
    ensures var r, dead, s := Reported(h, e).runner, Names(h, e.gone), e.runner.system;
      && Sound(h, m, r) && r.generations == e.runner.generations - dead
      && (if s.active.Some? && s.active.value.owner.id in dead then r.system.active.None? && !r.system.poisoned
          else r.system == s)
  {
    ReleaseKeepsInvariant(e.runner, Names(h, e.gone), false, false);
  }

  lemma ReportKeepsGood<S, P, H, L>(h: Host, m: Model<S, P, H, L>, e: Engine<S, P, H>)
    requires ValidHost(h) && Good(h, m, e)
    ensures Good(h, m, Reported(h, e))
  {
    var told := Reported(h, e);
    ReportedRunner(h, m, e);
    forall id: nat
      ensures h.name(id) in told.runner.generations <==> id in told.queues.running || id in told.lost
    {
      NamesApart(h, e.gone, id);
    }
    if e.holder.Some? {
      NamesApart(h, e.gone, e.holder.value);
    }
  }

  lemma ReplaceKeepsGood<S, P, H, L>(h: Host, m: Model<S, P, H, L>, e: Engine<S, P, H>)
    requires ValidHost(h) && Good(h, m, e)
    ensures Good(h, m, Replaced(e))
  {
  }

  // ----- Between passes

  lemma ArrangeKeepsGood<S, P, H, L>(h: Host, m: Model<S, P, H, L>, e: Engine<S, P, H>, op: Op<S, P, H>)
    requires ValidHost(h) && Good(h, m, e) && op.Arrange? && Enabled(h, e, op)
    ensures Good(h, m, Next(h, m, e, op))
  {
    OtherKeepsHealthy(e.queues, op.next);
    forall id | id in op.next.running ensures id in e.queues.running {
      assert id in multiset(op.next.running);
    }
    ArrangedHolder(h, m, e, op);
    LedgerMoves(h, e, Next(h, m, e, op));
  }

  /** The ledger goes by who runs, is gone or is lost, however requests move among these. */
  lemma LedgerMoves<S, P, H>(h: Host, e: Engine<S, P, H>, next: Engine<S, P, H>)
    requires Ledger(h, e) && next.runner == e.runner && next.holder == e.holder
    requires forall id :: (id in e.queues.running || id in e.gone || id in e.lost) <==>
                          (id in next.queues.running || id in next.gone || id in next.lost)
    ensures Ledger(h, next)
  {
  }

  lemma ArrangedHolder<S, P, H, L>(h: Host, m: Model<S, P, H, L>, e: Engine<S, P, H>, op: Op<S, P, H>)
    requires ValidHost(h) && Good(h, m, e) && op.Arrange? && Enabled(h, e, op) && Healthy(op.next)
    requires forall id :: id in op.next.running ==> id in e.queues.running
    ensures Held(h, Next(h, m, e, op))
  {
    var later := Partials(op.next);
    if later != [] {
      assert later[0] in later;
      PartialIs(e.queues, later[0]);
    }
    if e.holder.Some? && e.holder.value in op.next.running && !e.runner.system.poisoned {
      PartialIs(op.next, e.holder.value);
    }
  }

  // ----- Decode-only passes

  lemma DecodeNoDuplicates(q: Queues, inner: Queues)
    requires Healthy(q) && InnerStep(DecodeOpened(q), inner)
    ensures NoDuplicates(inner) && forall id :: id in Requests(inner) <==> id in Decodes(q)
  {
    var seen := Requests(DecodeOpened(q));
    FilterSplits(q.running, q.chunk);
    forall id | id in seen ensures seen[id] == 1 {
      assert id in Requests(q) && Requests(q)[id] >= seen[id];
    }
    assert Requests(inner) == seen == multiset(Decodes(q));
  }

  lemma DecodedRequests(q: Queues, inner: Queues)
    requires Healthy(q) && InnerStep(DecodeOpened(q), inner)
    ensures Requests(DecodeClosed(q, inner)) == Requests(q)
  {
    FilterSplits(q.running, q.chunk);
    JoinedRequests(inner.running, Partials(q));
    JoinedRequests(inner.waiting, q.waiting);
    JoinedRequests(inner.skipped, q.skipped);
    assert Requests(DecodeOpened(q)) == multiset(Decodes(q));
  }

  /** The pass leaves the partial prefill alone. */
  lemma DecodedPartials(q: Queues, inner: Queues)
    requires Healthy(q) && InnerStep(DecodeOpened(q), inner) && forall id :: id in inner.running ==> id !in inner.chunk
    ensures Partials(DecodeClosed(q, inner)) == Partials(q)
  {
    FilterConcat(inner.running, Partials(q), inner.chunk, true);
    FilterEmpty(inner.running, inner.chunk);
    if Partials(q) != [] {
      var id := Partials(q)[0];
      assert id in Partials(q) && Partials(q) == [id];
      DecodeNoDuplicates(q, inner);
      assert id !in Requests(DecodeOpened(q));
      assert Filter([id], inner.chunk, true) == [id];
    }
  }

  lemma DecodedHealthy(q: Queues, inner: Queues)
    requires Healthy(q) && InnerStep(DecodeOpened(q), inner) && forall id :: id in inner.running ==> id !in inner.chunk
    ensures Healthy(DecodeClosed(q, inner))
  {
    DecodedRequests(q, inner);
    DecodedPartials(q, inner);
    OpenedRequests(q);
    assert multiset(inner.running) <= Requests(inner) == multiset(Decodes(q));
    SubmultisetSize(inner.running, Decodes(q));
  }

  /** What runs after the pass ran before, and what ran before runs still or was preempted in it. */
  lemma DecodedRunning(q: Queues, inner: Queues, id: nat)
    requires Healthy(q) && InnerStep(DecodeOpened(q), inner)
    ensures id in DecodeClosed(q, inner).running ==> id in q.running
    ensures id in q.running <==> id in DecodeClosed(q, inner).running || id in Left(DecodeOpened(q), inner)
  {
    DecodeNoDuplicates(q, inner);
    if id in inner.running {
      assert id in Requests(inner);
    }
    if id in q.running {
      RunsAs(q, id);
    }
  }

  lemma DecodedWaiting(q: Queues, inner: Queues, id: nat)
    requires Healthy(q) && InnerStep(DecodeOpened(q), inner)
    requires id in DecodeClosed(q, inner).waiting || id in DecodeClosed(q, inner).skipped
    ensures id in Left(DecodeOpened(q), inner) || ((id in q.waiting || id in q.skipped) && id !in q.running)
  {
    if id in inner.waiting || id in inner.skipped {
      DecodeNoDuplicates(q, inner);
      OnePlace(inner, id);
      assert id in Requests(inner);
    } else {
      OnePlace(q, id);
    }
  }

  lemma DecodingKeepsGood<S, P, H, L>(h: Host, m: Model<S, P, H, L>, e: Engine<S, P, H>, inner: Queues,
                                      restarts: map<nat, Work>)
    requires ValidHost(h) && Good(h, m, e) && DecodePass(h, e, inner, restarts)
    ensures Good(h, m, Decoding(e, inner, restarts))
  {
    var next := Decoding(e, inner, restarts);
    DecodedHealthy(e.queues, inner);
    DecodedPartials(e.queues, inner);
    forall id | id in next.queues.waiting || id in next.queues.skipped
      ensures id in next.work && Open(h.cfg, next.work[id]) && Fresh(next.work[id])
    {
      DecodedWaiting(e.queues, inner, id);
      assert id in Left(DecodeOpened(e.queues), inner) ==> id in e.queues.running;
    }
    forall id: nat
      ensures id in next.queues.running ==> id in e.queues.running
      ensures id in e.queues.running <==> id in next.queues.running || id in Left(DecodeOpened(e.queues), inner)
    {
      DecodedRunning(e.queues, inner, id);
    }
    LeftElsewhere(e.queues, inner);
  }

  /** A preempted decode does not run after the pass, and the partial prefill is not one. */
  lemma LeftElsewhere(q: Queues, inner: Queues)
    requires Healthy(q) && InnerStep(DecodeOpened(q), inner)
    ensures forall id :: id in Left(DecodeOpened(q), inner) ==> id !in DecodeClosed(q, inner).running
    ensures forall id :: id in Left(DecodeOpened(q), inner) ==> id !in q.chunk
  {
    forall id | id in Left(DecodeOpened(q), inner) ensures id !in DecodeClosed(q, inner).running && id !in q.chunk {
      assert id in Decodes(q);
      if id in Partials(q) {
        assert false;
      }
    }
  }

  lemma DecodeKeepsGood<S, P, H, L>(h: Host, m: Model<S, P, H, L>, e: Engine<S, P, H>, op: Op<S, P, H>)
    requires ValidHost(h) && Good(h, m, e) && op.Decode? && Enabled(h, e, op)
    ensures Good(h, m, Next(h, m, e, op))
  {
    var decoding := Decoding(e, op.inner, op.restarts);
    DecodingKeepsGood(h, m, e, op.inner, op.restarts);
    ReportKeepsGood(h, m, decoding);
    DeviceKeepsGood(h, m, Reported(h, decoding), op.device);
  }

  lemma DeviceKeepsGood<S, P, H, L>(h: Host, m: Model<S, P, H, L>, e: Engine<S, P, H>, device: Device<S, P, H>)
    requires ValidHost(h) && Good(h, m, e) && DecodeAllowed(e.runner.system, device)
    ensures Good(h, m, e.(runner := Decoded(e.runner, device)))
  {
    var r := Decoded(e.runner, device);
    DecodeFaithful(h.cfg, m, e.runner.system, device);
    forall id | id in r.generations ensures Untouched(r, id) {
      assert Untouched(e.runner, id);
    }
  }

  // ----- Prefill passes that schedule nothing

  lemma PausedWaiting<S, P, H>(h: Host, e: Engine<S, P, H>, inner: Queues, id: nat)
    requires ValidHost(h) && Healthy(e.queues) && Waiting(h, e) && Held(h, e) && InnerStep(Opened(e.queues), inner)
    requires id in Closed(SavedOf(e.queues), inner).waiting || id in Closed(SavedOf(e.queues), inner).skipped
    ensures var work := Restarted(e.work, Left(Opened(e.queues), inner));
      id in work && Open(h.cfg, work[id]) && Fresh(work[id])
  {
    WaitsAfter(e.queues, inner, id);
    if id in Left(Opened(e.queues), inner) {
      PartialLeft(e.queues, inner, id);
      RestartsFresh(h.cfg, e.work[id]);
    }
  }

  /** What runs after an idle pass ran before, and what ran before runs still or was preempted in it. */
  lemma PausedRunning(q: Queues, inner: Queues, id: nat)
    requires Healthy(q) && InnerStep(Opened(q), inner) && forall p :: p in inner.running ==> p in Opened(q).running
    ensures id in q.running <==> id in Closed(SavedOf(q), inner).running || id in Left(Opened(q), inner)
    ensures id in Left(Opened(q), inner) ==> id !in Closed(SavedOf(q), inner).running
  {
    ClosedPartials(q, inner);
    if id in q.running {
      RunsAs(q, id);
    }
    if id in Left(Opened(q), inner) {
      PartialLeft(q, inner, id);
      assert id in Partials(q);
      if id in Decodes(q) {
        assert false;
      }
    }
  }

  lemma PausedKeepsGood<S, P, H, L>(h: Host, m: Model<S, P, H, L>, e: Engine<S, P, H>, inner: Queues)
    requires ValidHost(h) && Good(h, m, e) && IdlePass(e, inner)
    ensures Good(h, m, Paused(e, inner))
  {
    var next := Paused(e, inner);
    ClosedPartials(e.queues, inner);
    forall id | id in next.queues.waiting || id in next.queues.skipped
      ensures id in next.work && Open(h.cfg, next.work[id]) && Fresh(next.work[id])
    {
      PausedWaiting(h, e, inner, id);
    }
    forall id: nat
      ensures id in e.queues.running <==> id in next.queues.running || id in Left(Opened(e.queues), inner)
      ensures id in Left(Opened(e.queues), inner) ==> id !in next.queues.running
    {
      PausedRunning(e.queues, inner, id);
    }
    PausedHolder(h, m, e, inner);
  }

  lemma PausedHolder<S, P, H, L>(h: Host, m: Model<S, P, H, L>, e: Engine<S, P, H>, inner: Queues)
    requires ValidHost(h) && Good(h, m, e) && IdlePass(e, inner)
    ensures Held(h, Paused(e, inner))
  {
    var next := Paused(e, inner);
    ClosedPartials(e.queues, inner);
    if Partials(inner) != [] {
      assert Partials(inner)[0] in Partials(inner);
      PartialIs(e.queues, Partials(inner)[0]);
    }
    if e.holder.Some? && e.holder.value in next.queues.running && !e.runner.system.poisoned {
      HolderStays(e.queues, inner, e.holder.value);
    }
  }

  /** A partial prefill that still runs is still the partial prefill. */
  lemma HolderStays(q: Queues, inner: Queues, id: nat)
    requires Healthy(q) && InnerStep(Opened(q), inner) && id in Closed(SavedOf(q), inner).running
    requires forall p :: p in inner.running ==> p in Opened(q).running && (p in inner.chunk <==> p in q.chunk)
    requires id in q.running ==> Partials(q) == [id]
    ensures Partials(inner) == [id] && Partials(q) == [id] && id in inner.running
  {
    ClosedPartials(q, inner);
    PausedRunning(q, inner, id);
    assert id in Partials(q);
    if id !in inner.running {
      assert false;
    }
    PartialIs(Closed(SavedOf(q), inner), id);
  }

  lemma IdleKeepsGood<S, P, H, L>(h: Host, m: Model<S, P, H, L>, e: Engine<S, P, H>, op: Op<S, P, H>)
    requires ValidHost(h) && Good(h, m, e) && op.Idle? && Enabled(h, e, op)
    ensures Good(h, m, Next(h, m, e, op))
  {
    PausedKeepsGood(h, m, e, op.inner);
    ReportKeepsGood(h, m, Paused(e, op.inner));
    ReplaceKeepsGood(h, m, Paused(e, op.inner));
  }

  // ----- When a scheduled step is accepted

  /**
   * The scheduled request has no lost report, or is reported now after all; and the holder of the scratch, if any, is
   * reported now, or runs and has not failed.
   */
  predicate Clear<S, P, H>(e: Engine<S, P, H>, c: Chunk) {
    && !(c.id in e.lost && c.id !in e.gone)
    && (e.holder.Some? && e.holder.value !in e.gone ==>
          e.holder.value in e.queues.running && !e.runner.system.poisoned)
  }

  /** The report does not change whether the way is clear, and puts what is left in plain view. */
  lemma ClearOnceReported<S, P, H, L>(h: Host, m: Model<S, P, H, L>, e: Engine<S, P, H>, c: Chunk)
    requires ValidHost(h) && Good(h, m, e)
    ensures Clear(e, c) <==> Clear(Reported(h, e), c)
  {
    ReportedRunner(h, m, e);
    if e.holder.Some? {
      NamesApart(h, e.gone, e.holder.value);
    }
  }

  /** A scheduled request is the partial prefill, or waits and there is none. */
  lemma ScheduledIs<S, P, H>(h: Host, e: Engine<S, P, H>, inner: Queues, c: Chunk)
    requires ValidHost(h) && Healthy(e.queues) && Waiting(h, e) && SchedulePass(h, e, inner, c)
    ensures if c.id in e.queues.running then Partials(e.queues) == [c.id]
            else Partials(e.queues) == [] && Open(h.cfg, e.work[c.id]) && Fresh(e.work[c.id])
  {
    assert c.id in Requests(inner) && c.id in Requests(Opened(e.queues));
    if c.id in Partials(e.queues) {
      PartialIs(e.queues, c.id);
    } else {
      assert Partials(e.queues) == [];
      OnePlace(e.queues, c.id);
    }
  }

  /** The partial prefill's next step, or a new request's first one, is what a clear controller waits for. */
  lemma ClearIsWelcome<S, P, H, L>(h: Host, m: Model<S, P, H, L>, e: Engine<S, P, H>, inner: Queues, c: Chunk)
    requires ValidHost(h) && Good(h, m, e) && e.gone == {} && SchedulePass(h, e, inner, c) && Clear(e, c)
    ensures var (r, owner) := Identified(h, e.runner, c.id);
      && Sound(h, m, r) && !r.system.poisoned && Unfinished(r, owner) && owner.id == h.name(c.id) && owner.epoch >= 0
      && Open(h.cfg, e.work[c.id]) && Welcome(r.system.active, e.work[c.id], owner)
  {
    ScheduledIs(h, e, inner, c);
    IdentifyKeepsInvariant(e.runner, [h.name(c.id)]);
    if c.id in e.queues.running {
      assert e.holder == Some(c.id);
      assert Unfinished(e.runner, e.runner.system.active.value.owner);
    } else {
      assert e.holder.None?;
      assert h.name(c.id) !in e.runner.generations;
    }
  }

  /** Anything else in the way makes the submission or the controller refuse. */
  lemma UnclearIsRefused<S, P, H, L>(h: Host, m: Model<S, P, H, L>, e: Engine<S, P, H>, inner: Queues, c: Chunk)
    requires ValidHost(h) && Good(h, m, e) && e.gone == {} && SchedulePass(h, e, inner, c) && !Clear(e, c)
    ensures !Accepted(h, e, c)
  {
    ScheduledIs(h, e, inner, c);
    if !e.runner.system.poisoned {
      if c.id in e.lost && e.holder != Some(c.id) {
        assert e.runner.generations[h.name(c.id)].done;
      } else {
        HolderStarted(h, m, e);
      }
    }
  }

  /** A holder has processed at least a chunk unless its step failed. */
  lemma HolderStarted<S, P, H, L>(h: Host, m: Model<S, P, H, L>, e: Engine<S, P, H>)
    requires ValidHost(h) && Good(h, m, e) && e.holder.Some? && !e.runner.system.poisoned
    ensures e.runner.system.active.value.end > 0
  {
    var a := e.runner.system.active.value;
    AtGrows(1, Quotient(a.end, ChunkSize(h.cfg.g)), ChunkSize(h.cfg.g));
  }

  /** A scheduled step passes every check exactly when the way is clear. */
  lemma AcceptedIffClear<S, P, H, L>(h: Host, m: Model<S, P, H, L>, e: Engine<S, P, H>, inner: Queues, c: Chunk)
    requires ValidHost(h) && Good(h, m, e) && SchedulePass(h, e, inner, c)
    ensures Accepted(h, Reported(h, e), c) <==> Clear(e, c)
  {
    var told := Reported(h, e);
    ReportKeepsGood(h, m, e);
    ClearOnceReported(h, m, e, c);
    if Clear(e, c) {
      var (r, owner) := Identified(h, told.runner, c.id);
      ClearIsWelcome(h, m, told, inner, c);
      WelcomeIsAccepted(h.cfg, r.system.active, told.work[c.id], c, owner);
    } else {
      UnclearIsRefused(h, m, told, inner, c);
    }
  }

  // ----- A scheduled step

  /** The controller's owner after an intermediate step. */
  function OwnerOf(cfg: Config, w: Work, c: Chunk, owner: Owner): (a: Active)
    requires ValidConfig(cfg) && Paged(cfg, w, c)
    ensures a.owner == owner && Matches(Computed(cfg, w, c), a)
  {
    var end := EndOf(cfg, w);
    Active(owner, end, w.tokens[..end], c.pages[..PagesFor(cfg.g, end)])
  }

  lemma OwnerAdvances(cfg: Config, w: Work, c: Chunk, owner: Owner)
    requires ValidConfig(cfg) && Paged(cfg, w, c)
    ensures var i := ForwardInput(InputOf(cfg, w, c, owner));
      && i.final == (EndOf(cfg, w) == |w.tokens|) && i.end >= 0 && |i.tokens| == i.end
      && PagesFor(cfg.g, i.end) <= |i.pages|
      && Active(i.owner, i.end, i.tokens[..i.end], i.pages[..PagesFor(cfg.g, i.end)]) == OwnerOf(cfg, w, c, owner)
  {
    var end := EndOf(cfg, w);
    assert w.tokens[..end][..end] == w.tokens[..end];
  }

  /** What a welcome step leaves of the controller: its next owner, none, or a poisoned one. */
  ghost predicate ForwardOutcome<S, P, H, L>(cfg: Config, next: System<S, P, H>, result: Result<Option<L>>, w: Work,
                                             c: Chunk, owner: Owner)
    requires ValidConfig(cfg) && Paged(cfg, w, c)
  {
    && next.poisoned == result.Raised?
    && (result.Raised? ==> next.active.Some? && next.active.value.owner == owner)
    && (result.Ok? ==> next.active == if EndOf(cfg, w) < |w.tokens| then Some(OwnerOf(cfg, w, c, owner)) else None)
  }

  lemma WelcomeForwards<S, P, H, L>(cfg: Config, m: Model<S, P, H, L>, s: System<S, P, H>, w: Work, c: Chunk,
                                    owner: Owner, f: Faults<S, P, H>)
    requires ValidConfig(cfg) && Fitted(cfg, s.backend.device) && Plausible(cfg, f, s.backend.device) && Live(s)
    requires Open(cfg, w) && Paged(cfg, w, c) && Welcome(s.active, w, owner) && owner.id != "" && owner.epoch >= 0
    requires !s.poisoned && Faithful(cfg, m, s)
    ensures var (next, result) := ForwardStep(cfg, m, s, ForwardInput(InputOf(cfg, w, c, owner)), f);
      && Faithful(cfg, m, next) && ForwardOutcome(cfg, next, result, w, c, owner)
      && (f == NoFaults() ==> result.Ok? && Live(next))
  {
    var i := ForwardInput(InputOf(cfg, w, c, owner));
    WelcomeIsAccepted(cfg, s.active, w, c, owner);
    AcceptedOutcome(cfg, m, s, i, f);
    AcceptedSucceeds(cfg, m, s, i);
    ForwardFaithful(cfg, m, s, i, f);
    OwnerAdvances(cfg, w, c, owner);
  }

  /** Only the submitted entry changes, and only a successful last step completes it. */
  predicate EntriesAfter<S, P, H>(r: RunnerState<S, P, H>, next: RunnerState<S, P, H>, owner: Owner, done: bool) {
    && next.generations.Keys == r.generations.Keys && owner.id in r.generations
    && next.generations[owner.id] == Generation(owner.epoch, done)
    && forall s :: s in r.generations && s != owner.id ==> next.generations[s] == r.generations[s]
  }

  lemma WelcomeSubmits<S, P, H, L>(h: Host, m: Model<S, P, H, L>, r: RunnerState<S, P, H>, w: Work, c: Chunk,
                                   owner: Owner, f: Faults<S, P, H>)
    requires ValidConfig(h.cfg) && Sound(h, m, r) && Unfinished(r, owner) && owner.id != "" && owner.epoch >= 0
    requires Open(h.cfg, w) && Paged(h.cfg, w, c) && Welcome(r.system.active, w, owner) && !r.system.poisoned
    requires Plausible(h.cfg, f, r.system.backend.device)
    ensures var (next, result) := SubmitStep(h.cfg, m, ChunkSize(h.cfg.g), r, InputOf(h.cfg, w, c, owner), false, f);
      && Invariant(next) && Fitted(h.cfg, next.system.backend.device) && Faithful(h.cfg, m, next.system)
      && ForwardOutcome(h.cfg, next.system, result, w, c, owner)
      && EntriesAfter(r, next, owner, result.Ok? && EndOf(h.cfg, w) == |w.tokens|)
      && (f == NoFaults() ==> result.Ok? && Live(next.system))
  {
    var input := InputOf(h.cfg, w, c, owner);
    var (next, result) := SubmitStep(h.cfg, m, ChunkSize(h.cfg.g), r, input, false, f);
    SubmitKeepsInvariant(h.cfg, m, ChunkSize(h.cfg.g), r, input, false, f);
    WelcomeForwards(h.cfg, m, r.system, w, c, owner, f);
    assert (next.system, result) == ForwardStep(h.cfg, m, r.system, ForwardInput(input), f);
  }

  lemma IdentifiedEntries<S, P, H>(h: Host, r: RunnerState<S, P, H>, id: nat)
    requires forall s :: s in r.generations ==> r.generations[s].epoch >= 0
    ensures var next := Identified(h, r, id).0;
      && next.generations.Keys == r.generations.Keys + {h.name(id)}
      && (forall s :: s in r.generations ==> next.generations[s] == r.generations[s])
      && forall s :: s in next.generations ==> next.generations[s].epoch >= 0
  {
  }

  /** The submission of a clear step. */
  lemma SubmissionOutcome<S, P, H, L>(h: Host, m: Model<S, P, H, L>, e: Engine<S, P, H>, inner: Queues, c: Chunk,
                                      f: Faults<S, P, H>) returns (owner: Owner)
    requires ValidHost(h) && Good(h, m, e) && e.gone == {} && SchedulePass(h, e, inner, c) && Clear(e, c)
    requires Plausible(h.cfg, f, e.runner.system.backend.device)
    ensures var (next, result) := Submission(h, m, e, c, f);
      var w := e.work[c.id];
      && owner.id == h.name(c.id) && Open(h.cfg, w)
      && Invariant(next) && Fitted(h.cfg, next.system.backend.device) && Faithful(h.cfg, m, next.system)
      && ForwardOutcome(h.cfg, next.system, result, w, c, owner)
      && (f == NoFaults() ==> result.Ok? && Live(next.system))
      && next.generations.Keys == e.runner.generations.Keys + {owner.id}
      && (forall s :: s in e.runner.generations && s != owner.id ==> next.generations[s] == e.runner.generations[s])
      && (forall s :: s in next.generations ==> next.generations[s].epoch >= 0)
      && next.generations[owner.id].done == (result.Ok? && EndOf(h.cfg, w) == |w.tokens|)
  {
    var r := Identified(h, e.runner, c.id).0;
    owner := Identified(h, e.runner, c.id).1;
    ClearIsWelcome(h, m, e, inner, c);
    IdentifiedEntries(h, e.runner, c.id);
    WelcomeSubmits(h, m, r, e.work[c.id], c, owner, f);
  }

  lemma StillOpen(cfg: Config, w: Work, c: Chunk)
    requires ValidConfig(cfg) && Open(cfg, w) && Paged(cfg, w, c) && EndOf(cfg, w) < |w.tokens|
    ensures Open(cfg, Computed(cfg, w, c))
  {
    assert Remainder(w.computed + ChunkSize(cfg.g), ChunkSize(cfg.g)) == Remainder(w.computed, ChunkSize(cfg.g));
  }

  /** The queues after the pass: the scheduled request runs, and nothing else comes or goes. */
  lemma ScheduledRunning<S, P, H>(h: Host, e: Engine<S, P, H>, inner: Queues, c: Chunk, id: nat)
    requires ValidHost(h) && Healthy(e.queues) && Waiting(h, e) && SchedulePass(h, e, inner, c)
    ensures id in Closed(SavedOf(e.queues), inner).running <==> id == c.id || id in e.queues.running
  {
    ScheduledIs(h, e, inner, c);
    ClosedPartials(e.queues, inner);
    if id in e.queues.running {
      RunsAs(e.queues, id);
    }
  }

  lemma ScheduledWaiting<S, P, H>(h: Host, e: Engine<S, P, H>, inner: Queues, c: Chunk, id: nat)
    requires ValidHost(h) && Healthy(e.queues) && Waiting(h, e) && SchedulePass(h, e, inner, c)
    requires id in Closed(SavedOf(e.queues), inner).waiting || id in Closed(SavedOf(e.queues), inner).skipped
    ensures id != c.id && id in e.work && Open(h.cfg, e.work[id]) && Fresh(e.work[id])
  {
    ScheduledIs(h, e, inner, c);
    ClosedPartials(e.queues, inner);
    OnePlace(Closed(SavedOf(e.queues), inner), id);
    WaitsAfter(e.queues, inner, id);
    if id in Left(Opened(e.queues), inner) {
      PartialLeft(e.queues, inner, id);
    }
  }

  lemma ScheduledPartial<S, P, H>(h: Host, e: Engine<S, P, H>, inner: Queues, c: Chunk)
    requires ValidHost(h) && Healthy(e.queues) && SchedulePass(h, e, inner, c)
    ensures Healthy(Closed(SavedOf(e.queues), inner))
    ensures Partials(Closed(SavedOf(e.queues), inner)) == if c.id in inner.chunk then [c.id] else []
  {
    ClosedPartials(e.queues, inner);
    if c.id in inner.chunk {
      PartialIs(Closed(SavedOf(e.queues), inner), c.id);
    } else {
      NoPartial(inner);
    }
  }

  /** One more running request, with an entry of its own, which is done or has the scratch. */
  lemma LedgerGrows<S, P, H>(h: Host, e: Engine<S, P, H>, next: Engine<S, P, H>, id: nat, done: bool)
    requires ValidHost(h) && Ledger(h, e) && e.gone == next.gone == {} && next.lost == e.lost
    requires e.holder.Some? ==> e.holder.value == id
    requires next.holder == if done then None else Some(id)
    requires forall i :: i in next.queues.running <==> i == id || i in e.queues.running
    requires next.runner.generations.Keys == e.runner.generations.Keys + {h.name(id)}
    requires forall s :: s in e.runner.generations && s != h.name(id) ==>
               next.runner.generations[s] == e.runner.generations[s]
    requires forall s :: s in next.runner.generations ==> next.runner.generations[s].epoch >= 0
    requires next.runner.generations[h.name(id)].done == done
    ensures Ledger(h, next)
  {
    forall i: nat | h.name(i) in next.runner.generations && next.holder != Some(i)
      ensures next.runner.generations[h.name(i)].done
    {
      if i != id {
        assert h.name(i) in e.runner.generations && h.name(i) != h.name(id);
      }
    }
  }

  lemma ClearHolder<S, P, H, L>(h: Host, m: Model<S, P, H, L>, e: Engine<S, P, H>, inner: Queues, c: Chunk)
    requires ValidHost(h) && Good(h, m, e) && e.gone == {} && SchedulePass(h, e, inner, c) && Clear(e, c)
    ensures e.holder.Some? ==> e.holder.value == c.id
  {
    ScheduledIs(h, e, inner, c);
  }

  lemma SubmittedLedger<S, P, H, L>(h: Host, m: Model<S, P, H, L>, e: Engine<S, P, H>, inner: Queues, c: Chunk,
                                    f: Faults<S, P, H>)
    requires ValidHost(h) && Good(h, m, e) && e.gone == {} && SchedulePass(h, e, inner, c) && Clear(e, c)
    requires Plausible(h.cfg, f, e.runner.system.backend.device)
    ensures Ledger(h, Submitted(h, m, e, inner, c, f))
  {
    var next := Submitted(h, m, e, inner, c, f);
    var owner := SubmissionOutcome(h, m, e, inner, c, f);
    ClearHolder(h, m, e, inner, c);
    forall id ensures id in next.queues.running <==> id == c.id || id in e.queues.running {
      ScheduledRunning(h, e, inner, c, id);
    }
    LedgerGrows(h, e, next, c.id, next.runner.generations[owner.id].done);
  }

  lemma SubmittedHeld<S, P, H, L>(h: Host, m: Model<S, P, H, L>, e: Engine<S, P, H>, inner: Queues, c: Chunk,
                                  f: Faults<S, P, H>)
    requires ValidHost(h) && Good(h, m, e) && e.gone == {} && SchedulePass(h, e, inner, c) && Clear(e, c)
    requires Plausible(h.cfg, f, e.runner.system.backend.device)
    ensures Held(h, Submitted(h, m, e, inner, c, f))
  {
    var owner := SubmissionOutcome(h, m, e, inner, c, f);
    ScheduledPartial(h, e, inner, c);
    if c.id in inner.chunk {
      StillOpen(h.cfg, e.work[c.id], c);
    }
  }

  /** A clear step that requires no restart keeps the invariant, failed or not. */
  lemma SubmittedKeepsGood<S, P, H, L>(h: Host, m: Model<S, P, H, L>, e: Engine<S, P, H>, inner: Queues, c: Chunk,
                                       f: Faults<S, P, H>)
    requires ValidHost(h) && Good(h, m, e) && e.gone == {} && SchedulePass(h, e, inner, c) && Clear(e, c)
    requires Plausible(h.cfg, f, e.runner.system.backend.device)
    requires Live(Submission(h, m, e, c, f).0.system)
    ensures Good(h, m, Submitted(h, m, e, inner, c, f))
  {
    var next := Submitted(h, m, e, inner, c, f);
    ScheduledPartial(h, e, inner, c);
    SubmittedSound(h, m, e, inner, c, f);
    SubmittedLedger(h, m, e, inner, c, f);
    SubmittedHeld(h, m, e, inner, c, f);
    SubmittedPlaces(h, m, e, inner, c, f);
  }

  lemma SubmittedSound<S, P, H, L>(h: Host, m: Model<S, P, H, L>, e: Engine<S, P, H>, inner: Queues, c: Chunk,
                                   f: Faults<S, P, H>)
    requires ValidHost(h) && Good(h, m, e) && e.gone == {} && SchedulePass(h, e, inner, c) && Clear(e, c)
    requires Plausible(h.cfg, f, e.runner.system.backend.device)
    requires Live(Submission(h, m, e, c, f).0.system)
    ensures Sound(h, m, Submitted(h, m, e, inner, c, f).runner)
  {
    var owner := SubmissionOutcome(h, m, e, inner, c, f);
  }

  lemma SubmittedPlaces<S, P, H, L>(h: Host, m: Model<S, P, H, L>, e: Engine<S, P, H>, inner: Queues, c: Chunk,
                                    f: Faults<S, P, H>)
    requires ValidHost(h) && Good(h, m, e) && e.gone == {} && SchedulePass(h, e, inner, c) && Clear(e, c)
    requires Plausible(h.cfg, f, e.runner.system.backend.device)
    ensures var next := Submitted(h, m, e, inner, c, f);
      Waiting(h, next) && forall id :: id in next.queues.running ==> id !in next.gone && id !in next.lost
  {
    var next := Submitted(h, m, e, inner, c, f);
    forall id | id in next.queues.waiting || id in next.queues.skipped
      ensures id in next.work && Open(h.cfg, next.work[id]) && Fresh(next.work[id])
    {
      ScheduledWaiting(h, e, inner, c, id);
    }
    forall id | id in next.queues.running ensures id !in next.lost {
      ScheduledRunning(h, e, inner, c, id);
    }
  }

  lemma ScheduleKeepsGood<S, P, H, L>(h: Host, m: Model<S, P, H, L>, e: Engine<S, P, H>, op: Op<S, P, H>)
    requires ValidHost(h) && Good(h, m, e) && op.Schedule? && Enabled(h, e, op)
    requires Accepted(h, Reported(h, e), op.chunk) && Live(Next(h, m, e, op).runner.system)
    ensures Good(h, m, Next(h, m, e, op))
  {
    ReportKeepsGood(h, m, e);
    AcceptedIffClear(h, m, e, op.inner, op.chunk);
    ClearOnceReported(h, m, e, op.chunk);
    SubmittedKeepsGood(h, m, Reported(h, e), op.inner, op.chunk, op.faults);
  }

  /**
   * Why the runner must be told: until it is, no request can start, not even the preempted one again, because the
   * scratch still has the partial prefill's owner.
   */
  lemma UntoldRunnerRefuses<S, P, H, L>(h: Host, m: Model<S, P, H, L>, e: Engine<S, P, H>, w: Work, c: Chunk,
                                        owner: Owner, f: Faults<S, P, H>)
    requires ValidHost(h) && Good(h, m, e) && Partials(e.queues) != []
    requires Open(h.cfg, w) && Fresh(w) && Plausible(h.cfg, f, e.runner.system.backend.device)
    ensures SubmitStep(h.cfg, m, ChunkSize(h.cfg.g), e.runner, InputOf(h.cfg, w, c, owner), false, f) ==
            (e.runner, Raised)
  {
    if !e.runner.system.poisoned {
      HolderStarted(h, m, e);
    }
  }
}
