/**
 * Whole runs of scheduler, ledger, controller and device: when the next scheduled prefill step is accepted, what a
 * replaced output costs, how a failure is recovered from, and how soon a prompt completes.
 */
module ServingRuns {
  import opened Arithmetic
  import opened Continuation
  import opened ContinuationState
  import opened Interleave
  import opened Prefill
  import opened Results
  import opened Scheduler
  import opened Serving

  // ----- Runs

  /** A run from an engine with nothing running; a refused step, or a required restart, would end it. */
  ghost predicate IsRun<S, P, H, L>(h: Host, m: Model<S, P, H, L>, states: seq<Engine<S, P, H>>,
                                    ops: seq<Serving.Op<S, P, H>>)
    requires ValidHost(h)
  {
    && |states| == |ops| + 1 && Starts(h, states[0])
    && forall k :: 0 <= k < |ops| ==> Follows(h, m, states[k], ops[k], states[k + 1])
  }

  ghost predicate Starts<S, P, H>(h: Host, e: Engine<S, P, H>)
    requires ValidHost(h)
  {
    && e.queues.running == [] && e.queues.limit >= 0 && NoDuplicates(e.queues) && Serving.Waiting(h, e)
    && e.gone == {} && e.lost == {} && e.holder.None?
    && e.runner.generations == map[] && e.runner.system.active.None? && !e.runner.system.poisoned
    && e.runner.system.log == [] && Live(e.runner.system) && Fitted(h.cfg, e.runner.system.backend.device)
  }

  ghost predicate Follows<S, P, H, L>(h: Host, m: Model<S, P, H, L>, e: Engine<S, P, H>, op: Serving.Op<S, P, H>,
                                      next: Engine<S, P, H>)
    requires ValidHost(h)
  {
    && Fitted(h.cfg, e.runner.system.backend.device) && Serving.Enabled(h, e, op) && next == Serving.Next(h, m, e, op)
    && (op.Schedule? ==> Accepted(h, Reported(h, e), op.chunk) && Live(next.runner.system))
  }

  lemma RunGrows<S, P, H, L>(h: Host, m: Model<S, P, H, L>, states: seq<Engine<S, P, H>>, ops: seq<Serving.Op<S, P, H>>,
                             op: Serving.Op<S, P, H>, next: Engine<S, P, H>)
    requires ValidHost(h) && IsRun(h, m, states, ops) && Follows(h, m, states[|ops|], op, next)
    ensures IsRun(h, m, states + [next], ops + [op])
  {
    var longer, more := states + [next], ops + [op];
    forall k | 0 <= k < |more| ensures Follows(h, m, longer[k], more[k], longer[k + 1]) {
      GrownStep(h, m, states, ops, op, next, k);
    }
  }

  lemma GrownStep<S, P, H, L>(h: Host, m: Model<S, P, H, L>, states: seq<Engine<S, P, H>>,
                              ops: seq<Serving.Op<S, P, H>>, op: Serving.Op<S, P, H>, next: Engine<S, P, H>, k: nat)
    requires ValidHost(h) && |states| == |ops| + 1 && k <= |ops|
    requires if k < |ops| then Follows(h, m, states[k], ops[k], states[k + 1]) else Follows(h, m, states[k], op, next)
    ensures Follows(h, m, (states + [next])[k], (ops + [op])[k], (states + [next])[k + 1])
  {
    var longer, more := states + [next], ops + [op];
    if k < |ops| {
      SameStep(h, m, states[k], ops[k], states[k + 1], longer[k], more[k], longer[k + 1]);
    } else {
      SameStep(h, m, states[k], op, next, longer[k], more[k], longer[k + 1]);
    }
  }

  lemma SameStep<S, P, H, L>(h: Host, m: Model<S, P, H, L>, e: Engine<S, P, H>, op: Serving.Op<S, P, H>,
                             next: Engine<S, P, H>, e': Engine<S, P, H>, op': Serving.Op<S, P, H>,
                             next': Engine<S, P, H>)
    requires ValidHost(h) && Follows(h, m, e, op, next) && e' == e && op' == op && next' == next
    ensures Follows(h, m, e', op', next')
  {
  }

  lemma IdleFollows<S, P, H, L>(h: Host, m: Model<S, P, H, L>, e: Engine<S, P, H>, inner: Queues)
    requires ValidHost(h) && Fitted(h.cfg, e.runner.system.backend.device) && IdlePass(e, inner)
    requires Decodes(e.queues) != []
    ensures Follows(h, m, e, Serving.Op<S, P, H>.Idle(inner), Replaced(Paused(e, inner)))
  {
  }

  lemma StartsGood<S, P, H, L>(h: Host, m: Model<S, P, H, L>, e: Engine<S, P, H>)
    requires ValidHost(h) && Starts(h, e)
    ensures Good(h, m, e)
  {
    assert StatusOf(e.runner.system.log) == Interleave.Idle;
    NoPartial(e.queues);
  }

  lemma StepKeepsGood<S, P, H, L>(h: Host, m: Model<S, P, H, L>, e: Engine<S, P, H>, op: Serving.Op<S, P, H>,
                                  next: Engine<S, P, H>)
    requires ValidHost(h) && Good(h, m, e) && Follows(h, m, e, op, next)
    ensures Good(h, m, next)
  {
    match op
    case Arrange(_, _) => ArrangeKeepsGood(h, m, e, op);
    case Decode(_, _, _) => DecodeKeepsGood(h, m, e, op);
    case Idle(_) => IdleKeepsGood(h, m, e, op);
    case Schedule(_, _, _) => ScheduleKeepsGood(h, m, e, op);
  }

  /** In every run, failed steps and replaced outputs included, scheduler, ledger, controller and device agree. */
  lemma {:induction false} RunsStayGood<S, P, H, L>(h: Host, m: Model<S, P, H, L>, states: seq<Engine<S, P, H>>,
                                                    ops: seq<Serving.Op<S, P, H>>, k: nat)
    requires ValidHost(h) && IsRun(h, m, states, ops) && k <= |ops|
    ensures Good(h, m, states[k])
  {
    if k == 0 {
      StartsGood(h, m, states[0]);
    } else {
      var j := k - 1;
      RunsStayGood(h, m, states, ops, j);
      assert Follows(h, m, states[j], ops[j], states[j + 1]);
      StepKeepsGood(h, m, states[j], ops[j], states[j + 1]);
    }
  }

  // ----- When the next step is accepted

  /**
   * In every run the next scheduled step passes every check of the submission and of the controller exactly when the
   * way is clear, whatever its device operations then do.
   */
  lemma ScheduledStepIsAccepted<S, P, H, L>(h: Host, m: Model<S, P, H, L>, states: seq<Engine<S, P, H>>,
                                            ops: seq<Serving.Op<S, P, H>>, k: nat, inner: Queues, c: Serving.Chunk)
    requires ValidHost(h) && IsRun(h, m, states, ops) && k <= |ops| && SchedulePass(h, states[k], inner, c)
    ensures Accepted(h, Reported(h, states[k]), c) <==> Clear(states[k], c)
  {
    RunsStayGood(h, m, states, ops, k);
    AcceptedIffClear(h, m, states[k], inner, c);
  }

  /** An idle prefill pass whose output is replaced while there is something in it to report. */
  predicate Loses<S, P, H>(e: Engine<S, P, H>, op: Serving.Op<S, P, H>) {
    op.Idle? && Decodes(e.queues) != [] && e.gone + Left(Opened(e.queues), op.inner) != {}
  }

  lemma {:induction false} NothingLost<S, P, H, L>(h: Host, m: Model<S, P, H, L>, states: seq<Engine<S, P, H>>,
                                                   ops: seq<Serving.Op<S, P, H>>, k: nat)
    requires ValidHost(h) && IsRun(h, m, states, ops) && k <= |ops|
    requires forall j :: 0 <= j < k ==> !Loses(states[j], ops[j])
    ensures states[k].lost == {}
  {
    if k > 0 {
      var j := k - 1;
      NothingLost(h, m, states, ops, j);
      assert Follows(h, m, states[j], ops[j], states[j + 1]) && !Loses(states[j], ops[j]);
    }
  }

  /** A step that raised. */
  predicate Fails<S, P, H>(op: Serving.Op<S, P, H>, next: Engine<S, P, H>) {
    op.Schedule? && next.runner.system.poisoned
  }

  lemma StepStaysUnfailed<S, P, H, L>(h: Host, m: Model<S, P, H, L>, e: Engine<S, P, H>, op: Serving.Op<S, P, H>,
                                      next: Engine<S, P, H>)
    requires ValidHost(h) && Follows(h, m, e, op, next) && !Fails(op, next) && !e.runner.system.poisoned
    ensures !next.runner.system.poisoned
  {
  }

  lemma {:induction false} NothingFailed<S, P, H, L>(h: Host, m: Model<S, P, H, L>, states: seq<Engine<S, P, H>>,
                                                     ops: seq<Serving.Op<S, P, H>>, k: nat)
    requires ValidHost(h) && IsRun(h, m, states, ops) && k <= |ops|
    requires forall j :: 0 <= j < k ==> !Fails(ops[j], states[j + 1])
    ensures !states[k].runner.system.poisoned
  {
    if k > 0 {
      var j := k - 1;
      NothingFailed(h, m, states, ops, j);
      assert Follows(h, m, states[j], ops[j], states[j + 1]) && !Fails(ops[j], states[j + 1]);
      StepStaysUnfailed(h, m, states[j], ops[j], states[j + 1]);
    }
  }

  /** As long as no replaced output had anything to report and no step failed, every scheduled step is accepted. */
  lemma CarriedReportsSuffice<S, P, H, L>(h: Host, m: Model<S, P, H, L>, states: seq<Engine<S, P, H>>,
                                          ops: seq<Serving.Op<S, P, H>>, k: nat, inner: Queues, c: Serving.Chunk)
    requires ValidHost(h) && IsRun(h, m, states, ops) && k <= |ops| && SchedulePass(h, states[k], inner, c)
    requires forall j :: 0 <= j < k ==> !Loses(states[j], ops[j]) && !Fails(ops[j], states[j + 1])
    ensures Accepted(h, Reported(h, states[k]), c)
  {
    NothingLost(h, m, states, ops, k);
    NothingFailed(h, m, states, ops, k);
    RunsStayGood(h, m, states, ops, k);
    NothingInTheWay(h, m, states[k], c);
    AcceptedIffClear(h, m, states[k], inner, c);
  }

  lemma NothingInTheWay<S, P, H, L>(h: Host, m: Model<S, P, H, L>, e: Engine<S, P, H>, c: Serving.Chunk)
    requires ValidHost(h) && Good(h, m, e) && e.lost == {} && !e.runner.system.poisoned
    ensures Clear(e, c)
  {
    if e.holder.Some? {
      assert Unfinished(e.runner, e.runner.system.active.value.owner);
    }
  }

  /**
   * After an idle pass whose output was replaced, with everything reported before and no failure: the next scheduled
   * step is accepted exactly when neither its request nor the holder of the scratch was in that output.
   */
  lemma ReplacedPassIsClear<S, P, H, L>(h: Host, m: Model<S, P, H, L>, e: Engine<S, P, H>, idle: Queues, inner: Queues,
                                        c: Serving.Chunk)
    requires ValidHost(h) && Good(h, m, e) && e.lost == {} && !e.runner.system.poisoned
    requires IdlePass(e, idle) && Decodes(e.queues) != []
    requires SchedulePass(h, Replaced(Paused(e, idle)), inner, c)
    ensures var output := e.gone + Left(Opened(e.queues), idle);
      Accepted(h, Reported(h, Replaced(Paused(e, idle))), c) <==>
      c.id !in output && (e.holder.Some? ==> e.holder.value !in output)
    ensures e.gone == {} ==>
              (Accepted(h, Reported(h, Replaced(Paused(e, idle))), c) <==>
               Partials(e.queues) == [] || Partials(e.queues)[0] in idle.running)
  {
    var after := Replaced(Paused(e, idle));
    PausedKeepsGood(h, m, e, idle);
    ReplaceKeepsGood(h, m, Paused(e, idle));
    AcceptedIffClear(h, m, after, inner, c);
    if e.holder.Some? {
      HolderPlaces(h, m, e, idle);
    }
    if e.gone == {} && c.id in Left(Opened(e.queues), idle) {
      PartialLeft(e.queues, idle, c.id);
    }
  }

  /** The holder runs after the pass unless the pass's output names it. */
  lemma HolderPlaces<S, P, H, L>(h: Host, m: Model<S, P, H, L>, e: Engine<S, P, H>, idle: Queues)
    requires ValidHost(h) && Good(h, m, e) && e.lost == {} && !e.runner.system.poisoned && e.holder.Some?
    requires IdlePass(e, idle)
    ensures e.holder.value in Paused(e, idle).queues.running <==>
            e.holder.value !in e.gone + Left(Opened(e.queues), idle)
    ensures e.gone == {} ==> Partials(e.queues) == [e.holder.value]
    ensures e.gone == {} ==> (e.holder.value in idle.running <==> e.holder.value !in Left(Opened(e.queues), idle))
  {
    assert Unfinished(e.runner, e.runner.system.active.value.owner);
    PausedRunning(e.queues, idle, e.holder.value);
  }

  // ----- Completion

  /**
   * In every run, with decode steps, arrivals, preemptions, failures and other prefills between, an accepted step
   * succeeds if its device operations do not fail, and one that ends a prompt leaves on the prompt's pages the state
   * and KV pages of one whole prefill of it, returns that prefill's logits, and writes exactly the prompt's slot.
   */
  lemma ScheduledPrefillIsWhole<S, P, H, L>(h: Host, m: Model<S, P, H, L>, states: seq<Engine<S, P, H>>,
                                            ops: seq<Serving.Op<S, P, H>>, k: nat)
    requires ValidHost(h) && IsRun(h, m, states, ops) && k < |ops| && ops[k].Schedule?
    ensures Follows(h, m, states[k], ops[k], states[k + 1])
    ensures var e, c, next := states[k], ops[k].chunk, states[k + 1];
      var w, output := e.work[c.id], Submission(h, m, Reported(h, e), c, ops[k].faults).1;
      && (output.Ok? <==> !next.runner.system.poisoned)
      && (ops[k].faults == NoFaults() ==> output.Ok?)
      && (output.Ok? && |w.tokens| <= w.computed + ChunkSize(h.cfg.g) ==>
            |c.pages| >= PagesFor(h.cfg.g, |w.tokens|) &&
            Completed(h.cfg, m, e.runner.system.backend.device, next.runner.system.backend.device, w.tokens,
                      c.pages[..PagesFor(h.cfg.g, |w.tokens|)], c.slot, output.value))
  {
    var e, c, told := states[k], ops[k].chunk, Reported(h, states[k]);
    RunsStayGood(h, m, states, ops, k);
    assert Follows(h, m, states[k], ops[k], states[k + 1]);
    AcceptedIffClear(h, m, e, ops[k].inner, c);
    ClearOnceReported(h, m, e, c);
    ReportKeepsGood(h, m, e);
    ClearIsWelcome(h, m, told, ops[k].inner, c);
    var (r, owner) := Identified(h, told.runner, c.id);
    WelcomeCompletes(h, m, r, e.work[c.id], c, owner, ops[k].faults);
  }

  lemma WelcomeCompletes<S, P, H, L>(h: Host, m: Model<S, P, H, L>, r: RunnerState<S, P, H>, w: Work, c: Serving.Chunk,
                                     owner: Owner, f: Faults<S, P, H>)
    requires ValidConfig(h.cfg) && Sound(h, m, r) && Unfinished(r, owner) && owner.id != "" && owner.epoch >= 0
    requires Open(h.cfg, w) && Paged(h.cfg, w, c) && Welcome(r.system.active, w, owner) && !r.system.poisoned
    requires Plausible(h.cfg, f, r.system.backend.device)
    ensures var (next, output) := SubmitStep(h.cfg, m, ChunkSize(h.cfg.g), r, InputOf(h.cfg, w, c, owner), false, f);
      && (output.Ok? <==> !next.system.poisoned)
      && (f == NoFaults() ==> output.Ok?)
      && (output.Ok? && |w.tokens| <= w.computed + ChunkSize(h.cfg.g) ==>
            |c.pages| >= PagesFor(h.cfg.g, |w.tokens|) &&
            Completed(h.cfg, m, r.system.backend.device, next.system.backend.device, w.tokens,
                      c.pages[..PagesFor(h.cfg.g, |w.tokens|)], c.slot, output.value))
  {
    var i := InputOf(h.cfg, w, c, owner);
    WelcomeIsAccepted(h.cfg, r.system.active, w, c, owner);
    WelcomeForwards(h.cfg, m, r.system, w, c, owner, f);
    ForwardFaithful(h.cfg, m, r.system, ForwardInput(i), f);
    assert EndOf(h.cfg, w) == |w.tokens| ==> w.tokens[..|w.tokens|] == w.tokens;
  }

  // ----- Recovery

  /**
   * In every run: a report that names the holder, failed or not, frees the scratch, and every request with no lost
   * report of its own is accepted again.
   */
  lemma ReleaseRecovers<S, P, H, L>(h: Host, m: Model<S, P, H, L>, states: seq<Engine<S, P, H>>,
                                    ops: seq<Serving.Op<S, P, H>>, k: nat, inner: Queues, c: Serving.Chunk)
    requires ValidHost(h) && IsRun(h, m, states, ops) && k <= |ops|
    requires states[k].holder.Some? && states[k].holder.value in states[k].gone
    ensures var told := Reported(h, states[k]);
      && Good(h, m, told) && told.holder.None? && !told.runner.system.poisoned && told.runner.system.active.None?
      && (SchedulePass(h, told, inner, c) && c.id !in told.lost ==> Accepted(h, Reported(h, told), c))
  {
    var e, told := states[k], Reported(h, states[k]);
    RunsStayGood(h, m, states, ops, k);
    ReportKeepsGood(h, m, e);
    ReportedRunner(h, m, e);
    NamesApart(h, e.gone, e.holder.value);
    if SchedulePass(h, told, inner, c) {
      AcceptedIffClear(h, m, told, inner, c);
    }
  }

  /** Until then nothing is accepted after a failed step. */
  lemma FailureBlocks<S, P, H, L>(h: Host, m: Model<S, P, H, L>, states: seq<Engine<S, P, H>>,
                                  ops: seq<Serving.Op<S, P, H>>, k: nat, inner: Queues, c: Serving.Chunk)
    requires ValidHost(h) && IsRun(h, m, states, ops) && k <= |ops| && SchedulePass(h, states[k], inner, c)
    requires states[k].runner.system.poisoned
    ensures Accepted(h, Reported(h, states[k]), c) ==>
              states[k].holder.Some? && states[k].holder.value in states[k].gone
  {
    RunsStayGood(h, m, states, ops, k);
    AcceptedIffClear(h, m, states[k], inner, c);
  }
}
