/**
 * What an accepted sequence of continuation steps leaves on the device: the state of one whole prefill of the
 * prompt, with decode slots untouched until the last step writes the named one.
 */
module ContinuationState {
  import opened Arithmetic
  import opened Continuation
  import opened Prefill
  import opened Results

  // ----- Step geometry

  /** The chunk indices of an admissible step, and the pages it uses. */
  lemma StepGeometry(cfg: Config, i: Input)
    requires ValidConfig(cfg) && Admissible(cfg, i)
    ensures var (tokens, pages, from, n) := RunStepInput(cfg, i);
      && i.start == At(from, ChunkSize(cfg.g)) && At(n, ChunkSize(cfg.g)) <= i.end
      && (n == from || n == from + 1) && (!i.final ==> i.end == At(n, ChunkSize(cfg.g)) && n == from + 1)
      && |TailTokens(cfg.g, tokens, n)| == i.end - At(n, ChunkSize(cfg.g))
      && (n == from ==> |TailTokens(cfg.g, tokens, n)| > 0)
      && |pages| == UsedPages(cfg.g, n, |TailTokens(cfg.g, tokens, n)|)
  {
    var size, from, n := ChunkSize(cfg.g), Quotient(i.start, ChunkSize(cfg.g)), Quotient(i.end, ChunkSize(cfg.g));
    Divided(i.start, size);
    Divided(i.end, size);
    QuotientShift(i.end - i.start, from, size);
    assert n == from + Quotient(i.end - i.start, size);
    PagesSplit(cfg.g, n, i.end - At(n, size));
  }

  /** Pages of `n` chunks and a remainder. */
  lemma PagesSplit(g: Geometry, n: nat, rest: nat)
    requires ValidGeometry(g)
    ensures PagesFor(g, At(n, ChunkSize(g)) + rest) == UsedPages(g, n, rest)
  {
    AtNested(n, g.blocks, g.block);
    QuotientShift(rest + g.block - 1, At(n, g.blocks), g.block);
  }

  // ----- The invariant

  /** A live, healthy owner's processed tokens are on the device exactly as a whole prefill would leave them. */
  ghost predicate Faithful<S, P, H, L>(cfg: Config, m: Model<S, P, H, L>, s: System<S, P, H>)
    requires ValidConfig(cfg)
  {
    s.active.Some? && !s.poisoned ==> Progressed(cfg, m, s.backend.device, s.active.value)
  }

  ghost predicate Progressed<S, P, H, L>(cfg: Config, m: Model<S, P, H, L>, d: Device<S, P, H>, a: Active)
    requires ValidConfig(cfg)
  {
    var n := Quotient(a.end, ChunkSize(cfg.g));
    && n > 0 && a.end == At(n, ChunkSize(cfg.g)) == |a.tokens| && |a.pages| == At(n, cfg.g.blocks)
    && Holds(d, a.pages, Chunks(m, cfg.g, a.tokens, n))
  }

  /** The page ids a request uses are distinct, as the block allocator hands them out. */
  predicate DistinctPages(cfg: Config, i: Input)
    requires ValidConfig(cfg) && Admissible(cfg, i)
  {
    Mapped(i.pages[..PagesFor(cfg.g, i.end)], cfg.physicalPages)
  }

  /** An accepted step finds the device ready: nothing at position 0, else the progress of the same prefix. */
  lemma AcceptedIsReady<S, P, H, L>(cfg: Config, m: Model<S, P, H, L>, s: System<S, P, H>, i: Input)
    requires ValidConfig(cfg) && Faithful(cfg, m, s) && !s.poisoned && Admissible(cfg, i) && Continues(s.active, i)
    ensures var (tokens, pages, from, n) := RunStepInput(cfg, i);
      Ready(m, cfg.g, s.backend.device, tokens, pages, from)
  {
    StepGeometry(cfg, i);
    var (tokens, pages, from, n) := RunStepInput(cfg, i);
    if from > 0 {
      AtGrows(1, from, ChunkSize(cfg.g));
      var a := s.active.value;
      AtGrows(from, n, cfg.g.blocks);
      assert PagesBefore(cfg.g, pages, from) == a.pages;
      ChunksOfPrefix(m, cfg.g, a.tokens, tokens, from);
    }
  }

  /** The try block leaves the decode slots alone, and when it succeeds the device and logits of the prefill. */
  lemma TryOutcome<S, P, H, L>(cfg: Config, m: Model<S, P, H, L>, b: Backend<S, P, H>, i: Input, f: Faults<S, P, H>)
    requires ValidConfig(cfg) && Admissible(cfg, i) && Fitted(cfg, b.device) && Plausible(cfg, f, b.device)
    ensures var (next, result) := TryStep(cfg, m, b, i, f);
      var (tokens, pages, from, n) := RunStepInput(cfg, i);
      next.device.slots == b.device.slots &&
      (result.Ok? ==> (next.device, result.value) == Step(m, cfg.g, b.device, tokens, pages, from, n, i.final))
  {
  }

  /** Drains change neither device nor binding, and only an unbinding that failed leaves the scratch bound. */
  lemma RunOutcome<S, P, H, L>(cfg: Config, m: Model<S, P, H, L>, b: Backend<S, P, H>, i: Input, f: Faults<S, P, H>)
    requires ValidConfig(cfg) && Admissible(cfg, i) && Fitted(cfg, b.device) && Plausible(cfg, f, b.device)
    ensures var (next, result) := RunStep(cfg, m, b, i, f);
      var (tokens, pages, from, n) := RunStepInput(cfg, i);
      var (d, logits) := Step(m, cfg.g, b.device, tokens, pages, from, n, i.final);
      && (result.Ok? && !i.final ==> next.device == d && result == Ok(None))
      && (result.Ok? && i.final ==>
            next.device == d.(slots := b.device.slots[i.slot := d.scratch]) && result == Ok(logits))
      && (result.Raised? && !next.restart ==> next.device.slots == b.device.slots)
      && (next.bound && !b.bound ==> f.unbind && result.Raised?)
  {
    var (entered, ok) := DrainStep(b, f.entry);
    if ok && !f.bind {
      TryOutcome(cfg, m, entered.(bound := true), i, f);
    }
  }

  /**
   * Every accepted step keeps the invariant. An intermediate step leaves the decode slots alone; the last one
   * leaves the state, KV pages and logits of one whole prefill of its tokens, and writes exactly its own slot.
   * Only the request's pages change, and a step that raises changes no slot unless a restart is required.
   */
  lemma ForwardFaithful<S, P, H, L>(cfg: Config, m: Model<S, P, H, L>, s: System<S, P, H>, i: Input,
                                    f: Faults<S, P, H>)
    requires ValidConfig(cfg) && Fitted(cfg, s.backend.device) && Plausible(cfg, f, s.backend.device)
    requires Faithful(cfg, m, s) && (Admissible(cfg, i) ==> DistinctPages(cfg, i))
    ensures var (next, result) := ForwardStep(cfg, m, s, i, f);
      && Faithful(cfg, m, next) && (result.Ok? ==> Admissible(cfg, i))
      && (result.Ok? && !i.final ==> next.backend.device.slots == s.backend.device.slots)
      && (result.Ok? && i.final ==>
            Completed(cfg, m, s.backend.device, next.backend.device, i.tokens[..i.end],
                      i.pages[..PagesFor(cfg.g, i.end)], i.slot, result.value))
      && (result.Raised? && !next.backend.restart ==> next.backend.device.slots == s.backend.device.slots)
      && (result.Ok? ==> OnlyPages(s.backend.device, next.backend.device, i.pages[..PagesFor(cfg.g, i.end)]))
  {
    if !s.poisoned && Admissible(cfg, i) && Continues(s.active, i) {
      AcceptedIsReady(cfg, m, s, i);
      RunOutcome(cfg, m, s.backend, i, f);
      if i.final {
        FinalOutcome(cfg, m, s.backend.device, i);
      } else {
        IntermediateOutcome(cfg, m, s.backend.device, i);
      }
    }
  }

  /** The owner after an accepted intermediate step. */
  function Advanced(cfg: Config, i: Input): Active
    requires ValidConfig(cfg) && Admissible(cfg, i)
  {
    Active(i.owner, i.end, i.tokens[..i.end], i.pages[..PagesFor(cfg.g, i.end)])
  }

  /** An intermediate step on a ready device. */
  lemma IntermediateOutcome<S, P, H, L>(cfg: Config, m: Model<S, P, H, L>, d: Device<S, P, H>, i: Input)
    requires ValidConfig(cfg) && Admissible(cfg, i) && DistinctPages(cfg, i) && |d.kv| == cfg.physicalPages && !i.final
    requires var (tokens, pages, from, n) := RunStepInput(cfg, i); Ready(m, cfg.g, d, tokens, pages, from)
    ensures var (tokens, pages, from, n) := RunStepInput(cfg, i);
      var (next, logits) := Step(m, cfg.g, d, tokens, pages, from, n, false);
      next.slots == d.slots && Progressed(cfg, m, next, Advanced(cfg, i)) && OnlyPages(d, next, pages)
  {
    StepGeometry(cfg, i);
    var (tokens, pages, from, n) := RunStepInput(cfg, i);
    IntermediateStep(m, cfg.g, d, tokens, pages, from, n);
    ChunkedProgress(cfg, m, Step(m, cfg.g, d, tokens, pages, from, n, false).0, i, n);
  }

  /** Held chunks that end where the step ends are its owner's progress. */
  lemma ChunkedProgress<S, P, H, L>(cfg: Config, m: Model<S, P, H, L>, next: Device<S, P, H>, i: Input, n: nat)
    requires ValidConfig(cfg) && Admissible(cfg, i) && n > 0 && i.end == At(n, ChunkSize(cfg.g))
    requires PagesFor(cfg.g, i.end) == At(n, cfg.g.blocks)
    requires Holds(next, PagesBefore(cfg.g, i.pages[..PagesFor(cfg.g, i.end)], n),
               Chunks(m, cfg.g, i.tokens[..i.end], n))
    ensures Progressed(cfg, m, next, Advanced(cfg, i))
  {
    var pages := i.pages[..PagesFor(cfg.g, i.end)];
    assert PagesBefore(cfg.g, pages, n) == pages;
    QuotientShift(0, n, ChunkSize(cfg.g));
  }

  /** The last step on a ready device. */
  lemma FinalOutcome<S, P, H, L>(cfg: Config, m: Model<S, P, H, L>, d: Device<S, P, H>, i: Input)
    requires ValidConfig(cfg) && Admissible(cfg, i) && DistinctPages(cfg, i) && Fitted(cfg, d) && i.final
    requires var (tokens, pages, from, n) := RunStepInput(cfg, i); Ready(m, cfg.g, d, tokens, pages, from)
    ensures var (tokens, pages, from, n) := RunStepInput(cfg, i);
      var (next, logits) := Step(m, cfg.g, d, tokens, pages, from, n, true);
      && OnlyPages(d, next, pages)
      && Completed(cfg, m, d, next.(slots := d.slots[i.slot := next.scratch]), i.tokens[..i.end],
                   i.pages[..PagesFor(cfg.g, i.end)], i.slot, logits)
  {
    StepGeometry(cfg, i);
    var (tokens, pages, from, n) := RunStepInput(cfg, i);
    FinalStep(m, cfg.g, d, tokens, pages, from, n);
  }

  /**
   * The outcome of a completed prompt: `after` holds on `pages` the state and KV pages of one whole prefill of
   * `tokens`, the logits are those of that prefill, and of the decode slots exactly the named one holds its state.
   */
  ghost predicate Completed<S, P, H, L>(cfg: Config, m: Model<S, P, H, L>, before: Device<S, P, H>,
                                        after: Device<S, P, H>, tokens: seq<int>, pages: seq<int>, slot: int,
                                        logits: Option<L>)
    requires ValidConfig(cfg)
  {
    var n := Quotient(|tokens|, ChunkSize(cfg.g));
    && 0 <= slot < |before.slots| == cfg.maxSlots && (n > 0 || |TailTokens(cfg.g, tokens, n)| > 0)
    && var w := Whole(m, cfg.g, tokens, n);
      HoldsWhole(after, pages, w) && logits == Some(w.logits) && after.slots == before.slots[slot := w.state]
  }

  // ----- Whole runs

  datatype Op<S, P, H> =
    | Forward(input: Input, faults: Faults<S, P, H>)
    | Cancel(owner: Owner, fault: bool)
    | Decode(device: Device<S, P, H>)

  /** Decoding between steps may change any slot and any page but the live owner's; the scratch is not its own. */
  ghost predicate DecodeAllowed<S, P, H>(s: System<S, P, H>, d: Device<S, P, H>) {
    var was := s.backend.device;
    && d.scratch == was.scratch && d.traced == was.traced && |d.kv| == |was.kv| && |d.slots| == |was.slots|
    && (s.active.Some? ==> forall q :: 0 <= q < |d.kv| && q in s.active.value.pages ==> d.kv[q] == was.kv[q])
  }

  ghost predicate Enabled<S, P, H>(cfg: Config, s: System<S, P, H>, op: Op<S, P, H>)
    requires ValidConfig(cfg)
  {
    match op
    case Forward(i, f) => Plausible(cfg, f, s.backend.device) && (Admissible(cfg, i) ==> DistinctPages(cfg, i))
    case Cancel(_, _) => true
    case Decode(d) => DecodeAllowed(s, d)
  }

  ghost function Next<S, P, H, L>(cfg: Config, m: Model<S, P, H, L>, s: System<S, P, H>, op: Op<S, P, H>)
    : (next: System<S, P, H>)
    requires ValidConfig(cfg) && Fitted(cfg, s.backend.device) && Enabled(cfg, s, op)
    ensures Fitted(cfg, next.backend.device)
  {
    match op
    case Forward(i, f) => ForwardStep(cfg, m, s, i, f).0
    case Cancel(owner, fault) => CancelStep(s, owner, fault).0
    case Decode(d) => s.(backend := s.backend.(device := d))
  }

  lemma DecodeFaithful<S, P, H, L>(cfg: Config, m: Model<S, P, H, L>, s: System<S, P, H>, d: Device<S, P, H>)
    requires ValidConfig(cfg) && Faithful(cfg, m, s) && DecodeAllowed(s, d)
    ensures Faithful(cfg, m, s.(backend := s.backend.(device := d)))
  {
    if s.active.Some? && !s.poisoned {
      var pages := s.active.value.pages;
      assert forall i :: 0 <= i < |pages| ==> pages[i] in pages;
      assert Gather(d.kv, pages) == Gather(s.backend.device.kv, pages);
    }
  }

  /** The states of a run: each follows from the one before by an enabled operation. */
  ghost predicate IsRun<S, P, H, L>(cfg: Config, m: Model<S, P, H, L>, states: seq<System<S, P, H>>,
                                    ops: seq<Op<S, P, H>>)
    requires ValidConfig(cfg)
  {
    && |states| == |ops| + 1
    && states[0].active.None? && !states[0].poisoned && Fitted(cfg, states[0].backend.device)
    && (forall k :: 0 <= k < |ops| ==>
      Fitted(cfg, states[k].backend.device) && Enabled(cfg, states[k], ops[k]) &&
      states[k + 1] == Next(cfg, m, states[k], ops[k]))
  }

  /** Every enabled operation keeps a state faithful. */
  lemma NextFaithful<S, P, H, L>(cfg: Config, m: Model<S, P, H, L>, s: System<S, P, H>, op: Op<S, P, H>)
    requires ValidConfig(cfg) && Faithful(cfg, m, s) && Fitted(cfg, s.backend.device) && Enabled(cfg, s, op)
    ensures Faithful(cfg, m, Next(cfg, m, s, op))
  {
    match op
    case Forward(i, f) => ForwardFaithful(cfg, m, s, i, f);
    case Cancel(owner, fault) =>
    case Decode(d) => DecodeFaithful(cfg, m, s, d);
  }

  /** Every state of every run is faithful. */
  lemma {:induction false} RunsStayFaithful<S, P, H, L>(cfg: Config, m: Model<S, P, H, L>,
                                                        states: seq<System<S, P, H>>, ops: seq<Op<S, P, H>>, k: nat)
    requires ValidConfig(cfg) && IsRun(cfg, m, states, ops) && k <= |ops|
    ensures Faithful(cfg, m, states[k])
  {
    if k > 0 {
      RunsStayFaithful(cfg, m, states, ops, k - 1);
      assert states[k - 1 + 1] == Next(cfg, m, states[k - 1], ops[k - 1]);
      NextFaithful(cfg, m, states[k - 1], ops[k - 1]);
    }
  }

  /**
   * In every run, with decoding between the steps, a prompt whose last step succeeds has the state, KV pages,
   * logits and decode slot of one whole prefill.
   */
  lemma ContinuedPrefillIsWhole<S, P, H, L>(cfg: Config, m: Model<S, P, H, L>, states: seq<System<S, P, H>>,
                                            ops: seq<Op<S, P, H>>, k: nat)
    requires ValidConfig(cfg) && IsRun(cfg, m, states, ops) && k < |ops| && ops[k].Forward? && ops[k].input.final
    requires ForwardStep(cfg, m, states[k], ops[k].input, ops[k].faults).1.Ok?
    ensures var i := ops[k].input;
      && Admissible(cfg, i)
      && Completed(cfg, m, states[k].backend.device, states[k + 1].backend.device, i.tokens[..i.end],
                   i.pages[..PagesFor(cfg.g, i.end)], i.slot, ForwardStep(cfg, m, states[k], i, ops[k].faults).1.value)
  {
    RunsStayFaithful(cfg, m, states, ops, k);
    ForwardFaithful(cfg, m, states[k], ops[k].input, ops[k].faults);
  }
}
