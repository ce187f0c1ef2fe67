/**
 * Which failures of one step matter (optimisation/sim/continuation.py, optimisation/sim/interleave.py): exactly when a
 * step is lawful, when it succeeds, when it requires a restart and when it leaves the scratch bound, and the same for
 * cancelling, submitting and releasing.
 */
module StepFaults {
  import opened Arithmetic
  import opened Continuation
  import opened ContinuationState
  import opened Interleave
  import opened Prefill
  import opened Results

  // ----- Lawful steps

  /** Chunk `c` from its boundary: the whole chunk, or the last part of the prompt. */
  predicate StepOfChunk(cfg: Config, i: Input, c: nat)
    requires ValidConfig(cfg)
  {
    var size := ChunkSize(cfg.g);
    i.start == At(c, size) && if i.final then i.start < i.end <= At(c + 1, size) else i.end == At(c + 1, size)
  }

  /** The first `used` pages are as many as the positions need, within every limit, and in the pool. */
  predicate PagesCover(cfg: Config, i: Input, used: nat)
    requires ValidConfig(cfg)
  {
    && 0 < used <= |i.pages| && used <= cfg.pageCapacity && At(used - 1, cfg.g.block) < i.end <= At(used, cfg.g.block)
    && forall j :: 0 <= j < used ==> 0 <= i.pages[j] < cfg.physicalPages
  }

  /**
   * The controller's checks admit exactly the steps that are one chunk from its boundary, or the prompt's last part of
   * one, with tokens of the vocabulary, pages of the pool for all positions so far, and a slot.
   */
  lemma AdmissibleExactlyWhen(cfg: Config, i: Input)
    requires ValidConfig(cfg)
    ensures Admissible(cfg, i) <==>
            && i.wellFormed && i.owner.id != "" && i.owner.epoch >= 0 && 0 <= i.slot < cfg.maxSlots
            && (exists c: nat :: StepOfChunk(cfg, i, c)) && (exists used: nat :: PagesCover(cfg, i, used))
            && i.end <= |i.tokens| && i.end <= cfg.maxLength
            && (forall j :: 0 <= j < i.end && j < |i.tokens| ==> 0 <= i.tokens[j] < cfg.vocabulary)
  {
    if 0 <= i.start < i.end {
      ChunkExactlyWhen(cfg, i);
      PagesExactlyWhen(cfg, i);
    }
  }

  lemma ChunkExactlyWhen(cfg: Config, i: Input)
    requires ValidConfig(cfg) && 0 <= i.start < i.end
    ensures (exists c: nat :: StepOfChunk(cfg, i, c)) <==>
            Remainder(i.start, ChunkSize(cfg.g)) == 0 && i.end - i.start <= ChunkSize(cfg.g)
            && (i.final || i.end - i.start == ChunkSize(cfg.g))
  {
    var size := ChunkSize(cfg.g);
    Divided(i.start, size);
    if c: nat :| StepOfChunk(cfg, i, c) {
      QuotientShift(0, c, size);
    }
    if Remainder(i.start, size) == 0 && i.end - i.start <= size && (i.final || i.end - i.start == size) {
      assert StepOfChunk(cfg, i, Quotient(i.start, size));
    }
  }

  lemma PagesExactlyWhen(cfg: Config, i: Input)
    requires ValidConfig(cfg) && 0 <= i.start < i.end
    ensures (exists used: nat :: PagesCover(cfg, i, used)) <==>
            PagesFor(cfg.g, i.end) <= |i.pages| && PagesFor(cfg.g, i.end) <= cfg.pageCapacity
            && InPool(i.pages[..PagesFor(cfg.g, i.end)], cfg.physicalPages)
  {
    var block, used := cfg.g.block, PagesFor(cfg.g, i.end);
    Divided(i.end + block - 1, block);
    if n: nat :| PagesCover(cfg, i, n) {
      QuotientShift(i.end + block - 1 - At(n, block), n, block);
    }
    if used <= |i.pages| && used <= cfg.pageCapacity && InPool(i.pages[..used], cfg.physicalPages) {
      forall j | 0 <= j < used ensures 0 <= i.pages[j] < cfg.physicalPages {
        assert i.pages[j] == i.pages[..used][j];
      }
      assert PagesCover(cfg, i, used);
    }
  }

  // ----- One run of the backend

  /** Nothing can be run before a restart. */
  predicate Unusable<S, P, H>(b: Backend<S, P, H>) { b.restart || b.failedDma }

  /** The scratch gets bound: the first drain and the binding succeed. */
  predicate Entered<S, P, H>(b: Backend<S, P, H>, f: Faults<S, P, H>) { !Unusable(b) && !f.entry && !f.bind }

  /** The prefill is reached: only a prompt's first step builds the rope. */
  predicate Prefills<S, P, H>(i: Input, f: Faults<S, P, H>) { !(i.start == 0 && f.rope) }

  /** Every operation up to the unbinding succeeds; readback and release happen on the last step only. */
  predicate Prefilled<S, P, H>(i: Input, f: Faults<S, P, H>) {
    && Prefills(i, f) && f.debris.None? && !f.dma && !f.sync && !f.exit && !f.unbind
    && (i.final ==> !f.readback && !f.release)
  }

  /** The slot write, on the last step only, and the drain after it succeed. */
  predicate Stored<S, P, H>(i: Input, f: Faults<S, P, H>) { i.final ==> f.slots.None? && !f.slotSync }

  /** A drain that is reached fails, or the slot write does. */
  predicate DrainFails<S, P, H>(i: Input, f: Faults<S, P, H>) {
    f.exit || (Prefills(i, f) && f.debris.None? && f.sync) || (Prefilled(i, f) && !Stored(i, f))
  }

  /** Exactly when a run succeeds, what latches, and whether the scratch stays bound. */
  lemma RunExactlyWhen<S, P, H, L>(cfg: Config, m: Model<S, P, H, L>, b: Backend<S, P, H>, i: Input,
                                   f: Faults<S, P, H>)
    requires ValidConfig(cfg) && Admissible(cfg, i) && Fitted(cfg, b.device) && Plausible(cfg, f, b.device)
    requires var (tokens, pages, from, n) := RunStepInput(cfg, i);
      i.final ==> Step(m, cfg.g, b.device, tokens, pages, from, n, true).1.Some?
    ensures var (next, result) := RunStep(cfg, m, b, i, f);
      && (result.Ok? <==> Entered(b, f) && Prefilled(i, f) && Stored(i, f))
      && (next.failedDma <==> b.failedDma || (Entered(b, f) && Prefills(i, f) && f.dma))
      && (next.restart <==> b.restart || (!Unusable(b) && f.entry) ||
                            (Entered(b, f) && !next.failedDma && DrainFails(i, f)))
      && next.bound == (if Entered(b, f) then f.unbind else b.bound)
      && (!Entered(b, f) ==> next.device == b.device)
  {
    if Entered(b, f) {
      var (tokens, pages, from, n) := RunStepInput(cfg, i);
      TryExactlyWhen(cfg, m, b.(bound := true), i, f);
      var (tried, result) := TryStep(cfg, m, b.(bound := true), i, f);
      LeaveExactlyWhen(tried, result, f);
    }
  }

  lemma TryExactlyWhen<S, P, H, L>(cfg: Config, m: Model<S, P, H, L>, b: Backend<S, P, H>, i: Input,
                                   f: Faults<S, P, H>)
    requires ValidConfig(cfg) && Admissible(cfg, i) && Fitted(cfg, b.device) && Plausible(cfg, f, b.device)
    requires !Unusable(b)
    ensures var (next, result) := TryStep(cfg, m, b, i, f);
      var (tokens, pages, from, n) := RunStepInput(cfg, i);
      && (result.Ok? <==> Prefills(i, f) && f.debris.None? && !f.dma && !f.sync && (i.final ==> !f.readback))
      && (result.Ok? ==> result.value == Step(m, cfg.g, b.device, tokens, pages, from, n, i.final).1)
      && (next.failedDma <==> Prefills(i, f) && f.dma)
      && (next.restart <==> Prefills(i, f) && f.debris.None? && !f.dma && f.sync)
  {
  }

  lemma LeaveExactlyWhen<S, P, H, L>(b: Backend<S, P, H>, result: Result<Option<L>>, f: Faults<S, P, H>)
    ensures var (next, ok) := LeaveStep(b, result, f);
      && (ok <==> !Unusable(b) && !f.exit && !f.unbind && !(result.Ok? && result.value.Some? && f.release))
      && next.failedDma == b.failedDma && (next.restart <==> b.restart || (!b.failedDma && f.exit))
      && next.bound == f.unbind && next.device == b.device
  {
  }

  // ----- The controller

  /** The step is the controller's to run. */
  predicate Takes<S, P, H>(cfg: Config, s: System<S, P, H>, i: Input)
    requires ValidConfig(cfg)
  {
    !s.poisoned && Admissible(cfg, i) && Continues(s.active, i)
  }

  /**
   * Over every faithful state: a step succeeds exactly when it is the controller's to run, no restart is required and
   * no operation it gets to fails. One that is not changes nothing; one that is and raises poisons the scratch, which
   * stays its owner's. A restart is required from then on exactly when a transfer, a drain it got to, or the slot
   * write failed, and the scratch stays bound exactly when its unbinding failed.
   */
  lemma ForwardExactlyWhen<S, P, H, L>(cfg: Config, m: Model<S, P, H, L>, s: System<S, P, H>, i: Input,
                                       f: Faults<S, P, H>)
    requires ValidConfig(cfg) && Fitted(cfg, s.backend.device) && Plausible(cfg, f, s.backend.device)
    requires Faithful(cfg, m, s) && (Admissible(cfg, i) ==> DistinctPages(cfg, i))
    ensures var (next, result) := ForwardStep(cfg, m, s, i, f);
      var b, after := s.backend, next.backend;
      && (result.Ok? <==> Takes(cfg, s, i) && Entered(b, f) && Prefilled(i, f) && Stored(i, f))
      && (!Takes(cfg, s, i) ==> next == s)
      && (Takes(cfg, s, i) ==>
            && next.poisoned == result.Raised?
            && (result.Raised? ==> next.active.Some? && next.active.value.owner == i.owner)
            && (after.failedDma <==> b.failedDma || (Entered(b, f) && Prefills(i, f) && f.dma))
            && (after.restart <==> b.restart || (!Unusable(b) && f.entry) ||
                                   (Entered(b, f) && !after.failedDma && DrainFails(i, f)))
            && after.bound == (if Entered(b, f) then f.unbind else b.bound)
            && (!Entered(b, f) ==> after.device == b.device))
  {
    if Takes(cfg, s, i) {
      AcceptedIsReady(cfg, m, s, i);
      if i.final {
        FinalOutcome(cfg, m, s.backend.device, i);
      }
      RunExactlyWhen(cfg, m, s.backend, i, f);
    }
  }

  /** Only the live owner cancels, poisoned or not, and exactly a successful drain frees the scratch. */
  lemma CancelExactlyWhen<S, P, H>(s: System<S, P, H>, owner: Owner, fault: bool)
    ensures var (next, ok) := CancelStep(s, owner, fault);
      var own := s.active.Some? && s.active.value.owner == owner;
      && (ok <==> own && !Unusable(s.backend) && !fault)
      && next.active == (if ok then None else s.active) && next.poisoned == (s.poisoned && !ok)
      && next.log == s.log + (if ok then [Cancelled(owner)] else [])
      && next.backend == s.backend.(restart := s.backend.restart || (own && !Unusable(s.backend) && fault))
  {
  }

  // ----- The ledger

  /** Identities are captured for exactly one request: the epoch it has, or one no request had before. */
  lemma IdentifyExactlyWhen<S, P, H>(r: RunnerState<S, P, H>, ids: seq<string>)
    requires Invariant(r)
    ensures var (next, owners) := IdentifyStep(r, ids);
      && (owners.Ok? <==> |ids| == 1) && next.system == r.system
      && (owners.Raised? ==> next == r)
      && (owners.Ok? ==>
            |owners.value| == 1 && owners.value[0].id == ids[0] &&
            var owner := owners.value[0];
            if ids[0] in r.generations then next == r && owner.epoch == r.generations[ids[0]].epoch
            else
              && next.generations == r.generations[ids[0] := Generation(owner.epoch, false)]
              && (forall id :: id in r.generations ==> r.generations[id].epoch < owner.epoch)
              && (forall j :: 0 <= j < |r.system.log| ==> r.system.log[j].owner.epoch < owner.epoch)
              && owner.epoch <= next.next)
  {
  }

  /** The submission is a current, unfinished entry's, sampled on the host, with one table, one marker, the budget. */
  predicate Current<S, P, H>(cfg: Config, budget: nat, r: RunnerState<S, P, H>, i: ModelInput, owner: Owner,
                             intermediate: bool)
  {
    && i.identity == Some([owner]) && i.marker == Some([intermediate]) && !i.deviceSampling && !i.perLayerTables
    && owner.id in r.generations && r.generations[owner.id] == Generation(owner.epoch, false)
    && budget == ChunkSize(cfg.g)
  }

  /**
   * A submission that is not such, or whose wait for pending decodes fails, raises and changes nothing. Any other is
   * the controller's step of its owner over its own tokens, pages, range and slot, final unless marked intermediate,
   * and completes the entry exactly when it succeeds and is final.
   */
  lemma SubmitExactlyWhen<S, P, H, L>(cfg: Config, m: Model<S, P, H, L>, budget: nat, r: RunnerState<S, P, H>,
                                      i: ModelInput, wait: bool, f: Faults<S, P, H>)
    requires ValidConfig(cfg) && Fitted(cfg, r.system.backend.device) && Plausible(cfg, f, r.system.backend.device)
    ensures var (next, output) := SubmitStep(cfg, m, budget, r, i, wait, f);
      && ((wait || !exists owner, intermediate :: Current(cfg, budget, r, i, owner, intermediate)) ==>
            next == r && output == Raised)
      && (forall owner, intermediate :: !wait && Current(cfg, budget, r, i, owner, intermediate) ==>
            var own := Input(i.wellFormed, i.tokens, i.pages, i.start, i.end, i.slot, !intermediate, owner);
            && (next.system, output) == ForwardStep(cfg, m, r.system, own, f) && next.next == r.next
            && next.generations == (if output.Ok? && !intermediate
                                    then r.generations[owner.id := Generation(owner.epoch, true)]
                                    else r.generations))
  {
    if Submittable(cfg, budget, r, i) {
      assert i.identity.value == [i.identity.value[0]] && i.marker.value == [i.marker.value[0]];
      assert Current(cfg, budget, r, i, i.identity.value[0], i.marker.value[0]);
    }
  }

  /**
   * A release succeeds unless the live owner is among the dead and the wait or its cancellation fails; it then forgets
   * exactly the dead and frees the scratch of a dead owner. A release that fails forgets nobody.
   */
  lemma ReleaseExactlyWhen<S, P, H>(r: RunnerState<S, P, H>, dead: set<string>, wait: bool, fault: bool)
    ensures var (next, ok) := ReleaseStep(r, dead, wait, fault);
      var holds := r.system.active.Some? && r.system.active.value.owner.id in dead;
      && (ok <==> !holds || (!wait && !Unusable(r.system.backend) && !fault)) && next.next == r.next
      && next.generations == (if ok then r.generations - dead else r.generations)
      && next.system.active == (if ok && holds then None else r.system.active)
      && next.system.poisoned == (r.system.poisoned && !(ok && holds))
      && next.system.backend.device == r.system.backend.device
  {
  }
}
