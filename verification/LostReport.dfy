/**
 * A run in which a report is lost: a partial prefill is preempted in a prefill pass that schedules nothing, whose
 * output the scheduler replaces because a decode runs (optimisation/sim/stage-plugin.py:28-32).
 */
module LostReport {
  import opened Arithmetic
  import opened Continuation
  import Interleave
  import opened Prefill
  import opened Results
  import opened Scheduler
  import opened Serving
  import opened ServingRuns

  function NameOf(id: nat): (name: string)
    ensures |name| == id + 1
  {
    if id == 0 then "r" else NameOf(id - 1) + "r"
  }

  /** Chunks of one position, three pages, two decode slots. */
  const HOST := Host(Config(Geometry(1, 1), 2, 2, 2, 3, 1), NameOf)

  lemma HostIsValid()
    ensures ValidHost(HOST) && ChunkSize(HOST.cfg.g) == 1
  {
    assert At(1, 1) == At(0, 1) + 1;
    forall a: nat, b: nat | NameOf(a) == NameOf(b) ensures a == b {
      assert |NameOf(a)| == |NameOf(b)|;
    }
  }

  /** Request 1 has a prompt of one token, request 2 one of two. */
  function First<S, P, H>(d: Device<S, P, H>): Engine<S, P, H> {
    Engine(Queues([], [1, 2], [], 2, {}), map[1 := Work([0], 0, []), 2 := Work([0, 0], 0, [])], {}, {}, None,
           Interleave.RunnerState(map[], 0, System(None, false, Backend(d, false, false, false), [])))
  }

  const WHOLE := Serving.Chunk(1, [0], 0)
  const HALF := Serving.Chunk(2, [1, 2], 1)

  /** Request 1 is prefilled and decodes, request 2 gets its first chunk, and is preempted in an idle pass. */
  function Ops<S, P, H>(): seq<Serving.Op<S, P, H>> {
    [Serving.Op<S, P, H>.Schedule(Queues([1], [2], [], 1, {}), WHOLE, NoFaults()),
     Serving.Op<S, P, H>.Schedule(Queues([2], [], [], 1, {2}), HALF, NoFaults()),
     Serving.Op<S, P, H>.Idle(Queues([], [2], [], 1, {2}))]
  }

  // ----- The queues

  lemma Admitted()
    ensures var q := Queues([], [1, 2], [], 2, {});
      var inner := Queues([1], [2], [], 1, {});
      && Opened(q) == Queues([], [1, 2], [], 1, {}) && InnerStep(Opened(q), inner)
      && Closed(SavedOf(q), inner) == Queues([1], [2], [], 2, {})
  {
    assert [1, 2] == [1] + [2];
  }

  lemma AloneDecoding(chunk: set<nat>)
    requires 1 !in chunk
    ensures Filter([1], chunk, true) == [] && Filter([1], chunk, false) == [1]
  {
    assert [1][1..] == [];
  }

  lemma Joined()
    ensures var q := Queues([1], [2], [], 2, {});
      var inner := Queues([2], [], [], 1, {2});
      && Opened(q) == Queues([], [2], [], 1, {}) && InnerStep(Opened(q), inner)
      && Closed(SavedOf(q), inner) == Queues([2, 1], [], [], 2, {2})
  {
    AloneDecoding({});
  }

  lemma Preempted()
    ensures var q := Queues([2, 1], [], [], 2, {2});
      var inner := Queues([], [2], [], 1, {2});
      && Decodes(q) == [1] && Opened(q) == Queues([2], [], [], 1, {2}) && InnerStep(Opened(q), inner)
      && Closed(SavedOf(q), inner) == Queues([1], [2], [], 2, {2}) && Left(Opened(q), inner) == {2}
  {
    AloneDecoding({2});
    assert [2, 1][1..] == [1];
  }

  lemma Resumed()
    ensures var q := Queues([1], [2], [], 2, {2});
      Opened(q) == Queues([], [2], [], 1, {2}) && InnerStep(Opened(q), Queues([2], [], [], 1, {2}))
  {
    AloneDecoding({2});
  }

  lemma PagesAre(n: nat)
    ensures PagesFor(HOST.cfg.g, n) == n
  {
    QuotientIsDivision(n, 1);
  }

  // ----- The run

  /** A first step of a request, with nothing lost or failed before it. */
  lemma GoesWell<S, P, H, L>(m: Model<S, P, H, L>, e: Engine<S, P, H>, inner: Queues, c: Serving.Chunk)
    requires ValidHost(HOST) && Good(HOST, m, e) && e.gone == {} && e.lost == {} && !e.runner.system.poisoned
    requires SchedulePass(HOST, e, inner, c)
    ensures var op := Serving.Op<S, P, H>.Schedule(inner, c, NoFaults());
      && Serving.Enabled(HOST, e, op) && Follows(HOST, m, e, op, Serving.Next(HOST, m, e, op))
      && var next := Serving.Next(HOST, m, e, op);
         && Good(HOST, m, next) && next.gone == {} && next.lost == {} && !next.runner.system.poisoned
         && next.queues == Closed(SavedOf(e.queues), inner)
         && next.work == e.work[c.id := Computed(HOST.cfg, e.work[c.id], c)]
  {
    var told := Reported(HOST, e);
    NothingInTheWay(HOST, m, e, c);
    AcceptedIffClear(HOST, m, e, inner, c);
    ClearOnceReported(HOST, m, e, c);
    ReportKeepsGood(HOST, m, e);
    var owner := SubmissionOutcome(HOST, m, told, inner, c, NoFaults());
    ScheduleKeepsGood(HOST, m, e, Serving.Op<S, P, H>.Schedule(inner, c, NoFaults()));
  }

  lemma FirstStarts<S, P, H>(d: Device<S, P, H>)
    requires Fitted(HOST.cfg, d)
    ensures ValidHost(HOST) && Starts(HOST, First(d))
  {
    HostIsValid();
  }

  lemma FirstPass<S, P, H, L>(m: Model<S, P, H, L>, e: Engine<S, P, H>)
    requires ValidHost(HOST) && e.queues == Queues([], [1, 2], [], 2, {})
    requires e.work == map[1 := Work([0], 0, []), 2 := Work([0, 0], 0, [])]
    ensures SchedulePass(HOST, e, Queues([1], [2], [], 1, {}), WHOLE)
  {
    Admitted();
    PagesAre(1);
    HostIsValid();
  }

  lemma SecondPass<S, P, H, L>(m: Model<S, P, H, L>, e: Engine<S, P, H>)
    requires ValidHost(HOST) && e.queues == Queues([1], [2], [], 2, {}) && 2 in e.work
    requires e.work[2] == Work([0, 0], 0, [])
    ensures SchedulePass(HOST, e, Queues([2], [], [], 1, {2}), HALF)
  {
    Joined();
    PagesAre(1);
    HostIsValid();
  }

  lemma LastPass<S, P, H, L>(m: Model<S, P, H, L>, e: Engine<S, P, H>)
    requires ValidHost(HOST) && e.queues == Queues([1], [2], [], 2, {2}) && 2 in e.work
    requires e.work[2] == Work([0, 0], 0, [])
    ensures SchedulePass(HOST, e, Queues([2], [], [], 1, {2}), HALF)
  {
    Resumed();
    PagesAre(1);
    HostIsValid();
  }

  /** Nothing has been lost and nothing has failed. */
  ghost predicate Clean<S, P, H, L>(m: Model<S, P, H, L>, e: Engine<S, P, H>)
    requires ValidHost(HOST)
  {
    Good(HOST, m, e) && e.gone == {} && e.lost == {} && !e.runner.system.poisoned
  }

  /** The next step of the second request is scheduled and refused. */
  ghost predicate Refused<S, P, H>(e: Engine<S, P, H>)
    requires ValidHost(HOST)
  {
    SchedulePass(HOST, e, Queues([2], [], [], 1, {2}), HALF) && !Accepted(HOST, Reported(HOST, e), HALF)
  }

  lemma Idles<S, P, H, L>(m: Model<S, P, H, L>, e: Engine<S, P, H>, inner: Queues)
    requires ValidHost(HOST) && Clean(m, e) && inner == Queues([], [2], [], 1, {2})
    requires e.queues == Queues([2, 1], [], [], 2, {2}) && 2 in e.work && e.work[2].tokens == [0, 0]
    ensures Follows(HOST, m, e, Serving.Op<S, P, H>.Idle(inner), Replaced(Paused(e, inner)))
    ensures Refused(Replaced(Paused(e, inner)))
  {
    var after := Replaced(Paused(e, inner));
    Preempted();
    IdleFollows(HOST, m, e, inner);
    assert after.queues == Queues([1], [2], [], 2, {2}) && after.work[2] == Work([0, 0], 0, []);
    LastPass(m, after);
    Blocked(m, e, inner, Queues([2], [], [], 1, {2}));
  }

  lemma Blocked<S, P, H, L>(m: Model<S, P, H, L>, e: Engine<S, P, H>, idle: Queues, inner: Queues)
    requires ValidHost(HOST) && Clean(m, e) && IdlePass(e, idle) && Decodes(e.queues) != []
    requires Partials(e.queues) != [] && Partials(e.queues)[0] !in idle.running
    requires SchedulePass(HOST, Replaced(Paused(e, idle)), inner, HALF)
    ensures !Accepted(HOST, Reported(HOST, Replaced(Paused(e, idle))), HALF)
  {
    ReplacedPassIsClear(HOST, m, e, idle, inner, HALF);
  }

  lemma Prefills<S, P, H, L>(m: Model<S, P, H, L>, e: Engine<S, P, H>, op: Serving.Op<S, P, H>)
    returns (next: Engine<S, P, H>)
    requires ValidHost(HOST) && Clean(m, e) && op.Schedule? && op.faults == NoFaults()
    requires SchedulePass(HOST, e, op.inner, op.chunk)
    ensures Follows(HOST, m, e, op, next) && Clean(m, next) && next.queues == Closed(SavedOf(e.queues), op.inner)
    ensures next.work == e.work[op.chunk.id := Computed(HOST.cfg, e.work[op.chunk.id], op.chunk)]
  {
    GoesWell(m, e, op.inner, op.chunk);
    next := Serving.Next(HOST, m, e, op);
  }

  /** Two steps into the run: the second request is the partial prefill beside a decode. */
  lemma Midway<S, P, H, L>(m: Model<S, P, H, L>, d: Device<S, P, H>) returns (e1: Engine<S, P, H>, e2: Engine<S, P, H>)
    requires ValidHost(HOST) && Fitted(HOST.cfg, d)
    ensures Follows(HOST, m, First(d), Ops()[0], e1) && Follows(HOST, m, e1, Ops()[1], e2) && Clean(m, e2)
    ensures e2.queues == Queues([2, 1], [], [], 2, {2}) && 2 in e2.work && e2.work[2].tokens == [0, 0]
  {
    FirstStarts(d);
    StartsGood(HOST, m, First(d));
    FirstPass(m, First(d));
    e1 := Prefills(m, First(d), Ops()[0]);
    Admitted();
    SecondPass(m, e1);
    e2 := Prefills(m, e1, Ops()[1]);
    Joined();
  }

  lemma Steps<S, P, H, L>(m: Model<S, P, H, L>, d: Device<S, P, H>)
    returns (e0: Engine<S, P, H>, e1: Engine<S, P, H>, e2: Engine<S, P, H>, e3: Engine<S, P, H>,
             ops: seq<Serving.Op<S, P, H>>)
    requires ValidHost(HOST) && Fitted(HOST.cfg, d)
    ensures e0 == First(d) && Starts(HOST, e0) && Refused(e3) && ops == Ops()
    ensures Follows(HOST, m, e0, ops[0], e1) && Follows(HOST, m, e1, ops[1], e2) && Follows(HOST, m, e2, ops[2], e3)
  {
    e0, ops := First(d), Ops();
    FirstStarts(d);
    e1, e2 := Midway(m, d);
    var idle := Queues([], [2], [], 1, {2});
    Idles(m, e2, idle);
    e3 := Replaced(Paused(e2, idle));
  }

  lemma ThreeSteps<S, P, H, L>(h: Host, m: Model<S, P, H, L>, e0: Engine<S, P, H>, e1: Engine<S, P, H>,
                               e2: Engine<S, P, H>, e3: Engine<S, P, H>, ops: seq<Serving.Op<S, P, H>>)
    requires ValidHost(h) && |ops| == 3 && Starts(h, e0)
    requires Follows(h, m, e0, ops[0], e1) && Follows(h, m, e1, ops[1], e2) && Follows(h, m, e2, ops[2], e3)
    ensures ServingRuns.IsRun(h, m, [e0, e1, e2, e3], ops)
  {
    assert ServingRuns.IsRun(h, m, [e0], []);
    RunGrows(h, m, [e0], [], ops[0], e1);
    RunGrows(h, m, [e0, e1], [ops[0]], ops[1], e2);
    RunGrows(h, m, [e0, e1, e2], [ops[0], ops[1]], ops[2], e3);
    assert [e0] + [e1] == [e0, e1] && [e0, e1] + [e2] == [e0, e1, e2] && [e0, e1, e2] + [e3] == [e0, e1, e2, e3];
    assert [ops[0]] + [ops[1]] == [ops[0], ops[1]] && [ops[0], ops[1]] + [ops[2]] == ops;
  }

  /** The run: with the report of its preemption lost, the second request's next step is refused. */
  lemma LostReportRefuses<S, P, H, L>(m: Model<S, P, H, L>, d: Device<S, P, H>) returns (states: seq<Engine<S, P, H>>)
    requires Fitted(HOST.cfg, d)
    ensures ValidHost(HOST) && ServingRuns.IsRun(HOST, m, states, Ops<S, P, H>())
    ensures states[0] == First(d) && Refused(states[3])
  {
    HostIsValid();
    var e0, e1, e2, e3, ops := Steps(m, d);
    ThreeSteps(HOST, m, e0, e1, e2, e3, ops);
    states := [e0, e1, e2, e3];
  }
}
