/**
 * How soon a prompt completes: the decode credit (optimisation/sim/interleave.py:39-51) and the chunks of the prefill
 * together bound the scheduling decisions it takes.
 */
module Deadline {
  import opened Arithmetic
  import opened Continuation
  import opened Prefill
  import opened Results
  import opened Scheduler
  import opened Serving
  import ServingRuns

  /** Chunks a prompt still needs. */
  function ChunksLeft(cfg: Config, w: Work): nat
    requires ValidConfig(cfg)
  {
    if w.computed >= |w.tokens| then 0 else Quotient(|w.tokens| - w.computed - 1, ChunkSize(cfg.g)) + 1
  }

  /** The request's work stays what it is: it is neither dropped nor preempted nor given another prompt. */
  predicate Stays<S, P, H>(e: Engine<S, P, H>, next: Engine<S, P, H>, id: nat) {
    id in e.work && id in next.work && next.work[id] == e.work[id]
  }

  /**
   * One operation with the credit before and after it. A pass is a decision of `choose_prefill` with a prefill wanted:
   * a decode-only pass when it says so, else a prefill pass, which schedules this request. Anything else leaves the
   * credit alone.
   */
  predicate Serves<S, P, H>(ratio: nat, e: Engine<S, P, H>, op: Serving.Op<S, P, H>, next: Engine<S, P, H>,
                            credit: nat, after: nat, id: nat)
  {
    match op
    case Arrange(_, _) => after == credit && Stays(e, next, id)
    case Decode(_, _, _) =>
      (after, false) == ChooseStep(ratio, credit, true, Decodes(e.queues) != []) && Stays(e, next, id)
    case Idle(_) => false
    case Schedule(_, c, _) => (after, true) == ChooseStep(ratio, credit, true, Decodes(e.queues) != []) && c.id == id
  }

  /** From state `j` up to state `k` of a run the request stays wanted and its steps are schedulable. */
  predicate Wanted<S, P, H>(ratio: nat, states: seq<Engine<S, P, H>>, ops: seq<Serving.Op<S, P, H>>, credits: seq<nat>,
                            id: nat, j: nat, k: nat)
    requires j <= k <= |ops| && |states| == |credits| == |ops| + 1
  {
    forall i :: j <= i < k ==> Serves(ratio, states[i], ops[i], states[i + 1], credits[i], credits[i + 1], id)
  }

  /** Which operations are scheduling decisions. */
  function DecisionsOf<S, P, H>(ops: seq<Serving.Op<S, P, H>>): (decisions: seq<bool>)
    ensures |decisions| == |ops| && forall i :: 0 <= i < |ops| ==> decisions[i] == !ops[i].Arrange?
  {
    seq(|ops|, (i: nat) requires i < |ops| => !ops[i].Arrange?)
  }

  /** The operation is the last step of the request's prompt. */
  predicate Completes<S, P, H>(cfg: Config, e: Engine<S, P, H>, op: Serving.Op<S, P, H>, id: nat) {
    op.Schedule? && op.chunk.id == id && id in e.work && EndOf(cfg, e.work[id]) == |e.work[id].tokens|
  }

  /** Decisions that are left at most, before the last step is made. */
  function Patience(cfg: Config, ratio: nat, w: Work, credit: nat): nat
    requires ValidConfig(cfg) && w.computed < |w.tokens|
  {
    At(ChunksLeft(cfg, w) - 1, ratio + 1) + credit + 1
  }

  /** A step that is not the last uses up a chunk. */
  lemma ChunkUsed(cfg: Config, w: Work, c: Serving.Chunk)
    requires ValidConfig(cfg) && Paged(cfg, w, c) && EndOf(cfg, w) < |w.tokens|
    ensures ChunksLeft(cfg, w) == ChunksLeft(cfg, Computed(cfg, w, c)) + 1 && ChunksLeft(cfg, Computed(cfg, w, c)) > 0
    ensures Computed(cfg, w, c).computed < |Computed(cfg, w, c).tokens|
  {
    var size, rest := ChunkSize(cfg.g), |w.tokens| - w.computed - 1;
    assert Quotient(rest, size) == 1 + Quotient(rest - size, size);
  }

  /** One operation, seen from the request: if it does not complete the prompt, a decision costs one of those left. */
  ghost predicate Costs(cfg: Config, ratio: nat, w: Work, credit: nat, next: Work, after: nat, decision: bool)
    requires ValidConfig(cfg)
  {
    w.computed < |w.tokens| && credit <= ratio ==>
      && next.computed < |next.tokens| && after <= ratio
      && Patience(cfg, ratio, next, after) + (if decision then 1 else 0) <= Patience(cfg, ratio, w, credit)
  }

  lemma PrefillCosts(cfg: Config, ratio: nat, w: Work, credit: nat, c: Serving.Chunk, after: nat)
    requires ValidConfig(cfg) && Paged(cfg, w, c) && EndOf(cfg, w) < |w.tokens| && after <= ratio
    ensures Costs(cfg, ratio, w, credit, Computed(cfg, w, c), after, true)
  {
    ChunkUsed(cfg, w, c);
    var n := ChunksLeft(cfg, w) - 1;
    assert At(n, ratio + 1) == At(n - 1, ratio + 1) + ratio + 1;
  }

  lemma ScheduledWork<S, P, H, L>(h: Host, m: Model<S, P, H, L>, e: Engine<S, P, H>, op: Serving.Op<S, P, H>,
                                  next: Engine<S, P, H>)
    requires ValidHost(h) && ServingRuns.Follows(h, m, e, op, next) && op.Schedule?
    ensures op.chunk.id in e.work && Paged(h.cfg, e.work[op.chunk.id], op.chunk)
    ensures next.work == e.work[op.chunk.id := Computed(h.cfg, e.work[op.chunk.id], op.chunk)]
  {
  }

  lemma StepCosts<S, P, H, L>(h: Host, m: Model<S, P, H, L>, ratio: nat, e: Engine<S, P, H>,
                              op: Serving.Op<S, P, H>, next: Engine<S, P, H>, credit: nat, after: nat, id: nat)
    requires ValidHost(h) && ServingRuns.Follows(h, m, e, op, next)
    requires Serves(ratio, e, op, next, credit, after, id) && !Completes(h.cfg, e, op, id)
    ensures id in e.work && id in next.work
    ensures Costs(h.cfg, ratio, e.work[id], credit, next.work[id], after, !op.Arrange?)
  {
    if op.Schedule? {
      ScheduledWork(h, m, e, op, next);
      PrefillCosts(h.cfg, ratio, e.work[id], credit, op.chunk, after);
    }
  }

  /** Decisions among operations. */
  function Count(decisions: seq<bool>): nat {
    if decisions == [] then 0
    else Count(decisions[..|decisions| - 1]) + if decisions[|decisions| - 1] then 1 else 0
  }

  /** Operation `i` costs the request what it may. */
  ghost predicate CostsAt<S, P, H>(cfg: Config, ratio: nat, states: seq<Engine<S, P, H>>,
                                   ops: seq<Serving.Op<S, P, H>>, credits: seq<nat>, id: nat, i: nat)
    requires ValidConfig(cfg) && i < |ops| && |states| == |credits| == |ops| + 1
  {
    && id in states[i].work && id in states[i + 1].work
    && Costs(cfg, ratio, states[i].work[id], credits[i], states[i + 1].work[id], credits[i + 1], !ops[i].Arrange?)
  }

  lemma {:induction false} CostsAddUp<S, P, H>(cfg: Config, ratio: nat, states: seq<Engine<S, P, H>>,
                                               ops: seq<Serving.Op<S, P, H>>, credits: seq<nat>, id: nat, j: nat,
                                               k: nat)
    requires ValidConfig(cfg) && j <= k <= |ops| && |states| == |credits| == |ops| + 1
    requires id in states[j].work && states[j].work[id].computed < |states[j].work[id].tokens| && credits[j] <= ratio
    requires forall i :: j <= i < k ==> CostsAt(cfg, ratio, states, ops, credits, id, i)
    ensures id in states[k].work && states[k].work[id].computed < |states[k].work[id].tokens| && credits[k] <= ratio
    ensures Patience(cfg, ratio, states[k].work[id], credits[k]) + Count(DecisionsOf(ops[j..k])) <=
            Patience(cfg, ratio, states[j].work[id], credits[j])
    decreases k - j
  {
    if j < k {
      var i := k - 1;
      CostsAddUp(cfg, ratio, states, ops, credits, id, j, i);
      assert CostsAt(cfg, ratio, states, ops, credits, id, i);
      assert DecisionsOf(ops[j..k])[..i - j] == DecisionsOf(ops[j..i]);
    }
  }

  lemma WantedCosts<S, P, H, L>(h: Host, m: Model<S, P, H, L>, ratio: nat, states: seq<Engine<S, P, H>>,
                                ops: seq<Serving.Op<S, P, H>>, credits: seq<nat>, id: nat, j: nat, k: nat, i: nat)
    requires ValidHost(h) && ServingRuns.IsRun(h, m, states, ops) && |credits| == |states| && j <= i < k <= |ops|
    requires Wanted(ratio, states, ops, credits, id, j, k) && !Completes(h.cfg, states[i], ops[i], id)
    ensures CostsAt(h.cfg, ratio, states, ops, credits, id, i)
  {
    assert ServingRuns.Follows(h, m, states[i], ops[i], states[i + 1]);
    assert Serves(ratio, states[i], ops[i], states[i + 1], credits[i], credits[i + 1], id);
    StepCosts(h, m, ratio, states[i], ops[i], states[i + 1], credits[i], credits[i + 1], id);
  }

  /**
   * In every run a prompt of which n chunks are left, and that stays wanted with its steps schedulable, makes its last
   * step within n * (ratio + 1) scheduling decisions.
   */
  lemma PromptCompletesInTime<S, P, H, L>(h: Host, m: Model<S, P, H, L>, ratio: nat, states: seq<Engine<S, P, H>>,
                                          ops: seq<Serving.Op<S, P, H>>, credits: seq<nat>, id: nat, j: nat, k: nat)
    requires ValidHost(h) && ServingRuns.IsRun(h, m, states, ops) && |credits| == |states| && j <= k <= |ops|
    requires Wanted(ratio, states, ops, credits, id, j, k) && credits[j] <= ratio
    requires id in states[j].work && states[j].work[id].computed < |states[j].work[id].tokens|
    requires Count(DecisionsOf(ops[j..k])) >= ChunksLeft(h.cfg, states[j].work[id]) * (ratio + 1)
    ensures exists i :: j <= i < k && Completes(h.cfg, states[i], ops[i], id)
  {
    if forall i :: j <= i < k ==> !Completes(h.cfg, states[i], ops[i], id) {
      forall i | j <= i < k ensures CostsAt(h.cfg, ratio, states, ops, credits, id, i) {
        WantedCosts(h, m, ratio, states, ops, credits, id, j, k, i);
      }
      CostsAddUp(h.cfg, ratio, states, ops, credits, id, j, k);
      PatienceBounded(h.cfg, ratio, states[j].work[id], credits[j]);
    }
  }

  lemma PatienceBounded(cfg: Config, ratio: nat, w: Work, credit: nat)
    requires ValidConfig(cfg) && w.computed < |w.tokens| && credit <= ratio
    ensures Patience(cfg, ratio, w, credit) <= ChunksLeft(cfg, w) * (ratio + 1)
  {
    var n := ChunksLeft(cfg, w);
    AtIsProduct(n, ratio + 1);
    assert At(n, ratio + 1) == At(n - 1, ratio + 1) + ratio + 1;
  }
}
