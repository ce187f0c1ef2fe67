/**
 * The single-owner prefill continuation (optimisation/sim/continuation.py): a controller that owns one shared
 * scratch, and the backend that runs one step on the device. Both classes are verified against step functions
 * on values, which the modules about whole runs use.
 */
module Continuation {
  import opened Arithmetic
  import opened Prefill
  import opened Results

  // ----- Values

  datatype Config = Config(g: Geometry, maxLength: nat, maxSlots: nat, pageCapacity: nat, physicalPages: nat,
                           vocabulary: nat)

  datatype Owner = Owner(id: string, epoch: int)

  /** One call of `forward`; `wellFormed` stands for the shape, type, device and text-only checks. */
  datatype Input = Input(wellFormed: bool, tokens: seq<int>, pages: seq<int>, start: int, end: int, slot: int,
                         final: bool, owner: Owner)

  datatype Active = Active(owner: Owner, end: nat, tokens: seq<int>, pages: seq<int>)

  /** The backend: the device, the two conditions that forbid any further run, and the binding of the scratch. */
  datatype Backend<S, P, H> = Backend(device: Device<S, P, H>, restart: bool, failedDma: bool, bound: bool)

  /**
   * What may go wrong in one call: every drain, binding and unbinding, rope and readback, releasing the logits, and
   * `debris` and `slots`, what a failed prefill or slot write leaves.
   */
  datatype Faults<S, P, H> = Faults(entry: bool, bind: bool, rope: bool, debris: Option<Device<S, P, H>>, dma: bool,
                                    sync: bool, readback: bool, exit: bool, release: bool, unbind: bool,
                                    slots: Option<seq<S>>, slotSync: bool)

  datatype Event =
    | Attempt(owner: Owner, start: nat, end: nat, final: bool, ok: bool, touched: bool)
    | Cancelled(owner: Owner)

  /** Controller and backend together, with the history of backend runs and cancellations. */
  datatype System<S, P, H> = System(active: Option<Active>, poisoned: bool, backend: Backend<S, P, H>, log: seq<Event>)

  predicate ValidConfig(cfg: Config) { ValidGeometry(cfg.g) && 0 < ChunkSize(cfg.g) }

  /** `math.ceil(positions / block)`. */
  function PagesFor(g: Geometry, positions: nat): nat
    requires ValidGeometry(g)
  {
    Quotient(positions + g.block - 1, g.block)
  }

  // ----- What `forward` admits

  /** The range, slot, page and token checks. */
  predicate Admissible(cfg: Config, i: Input)
    requires ValidConfig(cfg)
  {
    && i.wellFormed && i.owner.id != "" && i.owner.epoch >= 0
    && 0 <= i.start < i.end <= |i.tokens| && i.end <= cfg.maxLength
    && Remainder(i.start, ChunkSize(cfg.g)) == 0 && i.end - i.start <= ChunkSize(cfg.g)
    && (i.final || i.end - i.start == ChunkSize(cfg.g))
    && 0 <= i.slot < cfg.maxSlots
    && PagesFor(cfg.g, i.end) <= |i.pages| && PagesFor(cfg.g, i.end) <= cfg.pageCapacity
    && InPool(i.pages[..PagesFor(cfg.g, i.end)], cfg.physicalPages)
    && (forall j :: 0 <= j < i.end ==> 0 <= i.tokens[j] < cfg.vocabulary)
  }

  /** A new owner starts at 0; the live one continues where it stopped, over the same tokens and pages. */
  predicate Continues(active: Option<Active>, i: Input)
  {
    match active
    case None => i.start == 0
    case Some(a) => i.owner == a.owner && i.start == a.end && a.tokens <= i.tokens && |a.tokens| == i.start
                    && a.pages <= i.pages
  }

  // ----- Step functions

  /** `drain`: refuses for good once a restart is required, and requires one when the device fails to synchronise. */
  function DrainStep<S, P, H>(b: Backend<S, P, H>, fault: bool): (r: (Backend<S, P, H>, bool)) {
    if b.restart || b.failedDma then (b, false)
    else (b.(restart := fault), !fault)
  }

  /** Backends agree on slots and page pool with the configuration. */
  predicate Fitted<S, P, H>(cfg: Config, d: Device<S, P, H>) {
    |d.kv| == cfg.physicalPages && |d.slots| == cfg.maxSlots
  }

  ghost predicate Plausible<S, P, H>(cfg: Config, f: Faults<S, P, H>, d: Device<S, P, H>) {
    && (f.debris.Some? ==> Fitted(cfg, f.debris.value) && f.debris.value.slots == d.slots)
    && (f.slots.Some? ==> |f.slots.value| == cfg.maxSlots)
  }

  function RunStepInput(cfg: Config, i: Input): (r: (seq<int>, seq<int>, nat, nat))
    requires ValidConfig(cfg) && Admissible(cfg, i)
  {
    (i.tokens[..i.end], i.pages[..PagesFor(cfg.g, i.end)], Quotient(i.start, ChunkSize(cfg.g)),
     Quotient(i.end, ChunkSize(cfg.g)))
  }

  /** The body of the `try` in `run`: the device after it, and the logits unless it raised. */
  function TryStep<S, P, H, L>(cfg: Config, m: Model<S, P, H, L>, b: Backend<S, P, H>, i: Input, f: Faults<S, P, H>)
    : (r: (Backend<S, P, H>, Result<Option<L>>))
    requires ValidConfig(cfg) && Admissible(cfg, i) && Fitted(cfg, b.device) && Plausible(cfg, f, b.device)
    ensures Fitted(cfg, r.0.device) && r.0.device.slots == b.device.slots && r.0.bound == b.bound
  {
    var (tokens, pages, from, n) := RunStepInput(cfg, i);
    if i.start == 0 && f.rope then (b, Raised)
    else if f.debris.Some? then (b.(device := f.debris.value, failedDma := b.failedDma || f.dma), Raised)
    else Finished(b, Step(m, cfg.g, b.device, tokens, pages, from, n, i.final), i, f)
  }

  /** What follows the prefill in the `try`: the transfers, a drain, and on the last step the readback. */
  function Finished<S, P, H, L>(b: Backend<S, P, H>, prefilled: (Device<S, P, H>, Option<L>), i: Input,
                                f: Faults<S, P, H>): (r: (Backend<S, P, H>, Result<Option<L>>))
    ensures r.0.device == prefilled.0 && r.0.bound == b.bound && (r.1.Ok? ==> r.1.value == prefilled.1)
  {
    if f.dma then (b.(device := prefilled.0, failedDma := true), Raised)
    else
      var (drained, ok) := DrainStep(b.(device := prefilled.0), f.sync);
      if !ok || (i.final && f.readback) then (drained, Raised) else (drained, Ok(prefilled.1))
  }

  /** The slot write after unbinding; any failure there requires a restart. */
  function SlotStep<S, P, H>(cfg: Config, b: Backend<S, P, H>, slot: nat, state: S, f: Faults<S, P, H>)
    : (r: (Backend<S, P, H>, bool))
    requires slot < |b.device.slots| == cfg.maxSlots && Plausible(cfg, f, b.device)
    ensures |r.0.device.slots| == cfg.maxSlots && r.0.device.kv == b.device.kv && r.0.bound == b.bound
  {
    if f.slots.Some? then (b.(device := b.device.(slots := f.slots.value), restart := true), false)
    else
      var written := b.(device := b.device.(slots := b.device.slots[slot := state]));
      var (drained, ok) := DrainStep(written, f.slotSync);
      if ok then (drained, true) else (drained.(restart := true), false)
  }

  /** The `finally` of `run`: drain, release any logits if that succeeds, and unbind in any case. */
  function LeaveStep<S, P, H, L>(b: Backend<S, P, H>, result: Result<Option<L>>, f: Faults<S, P, H>)
    : (r: (Backend<S, P, H>, bool))
    ensures r.0.device == b.device && r.0.bound == f.unbind
  {
    var (left, clean) := DrainStep(b, f.exit);
    (left.(bound := f.unbind), clean && !(result.Ok? && result.value.Some? && f.release) && !f.unbind)
  }

  /** `run`: drain, bind the scratch, try, always drain and unbind, and on the last step write the decode slot. */
  function RunStep<S, P, H, L>(cfg: Config, m: Model<S, P, H, L>, b: Backend<S, P, H>, i: Input, f: Faults<S, P, H>)
    : (r: (Backend<S, P, H>, Result<Option<L>>))
    requires ValidConfig(cfg) && Admissible(cfg, i) && Fitted(cfg, b.device) && Plausible(cfg, f, b.device)
    ensures Fitted(cfg, r.0.device)
  {
    var (entered, ok) := DrainStep(b, f.entry);
    if !ok || f.bind then (entered, Raised)
    else
      var (tried, result) := TryStep(cfg, m, entered.(bound := true), i, f);
      var (unbound, clean) := LeaveStep(tried, result, f);
      StoreStep(cfg, unbound, if clean then result else Raised, i, tried.device.scratch, f)
  }

  /** After the `finally`: an intermediate step returns no logits, the last one writes the decode slot. */
  function StoreStep<S, P, H, L>(cfg: Config, b: Backend<S, P, H>, result: Result<Option<L>>, i: Input, state: S,
                                 f: Faults<S, P, H>): (r: (Backend<S, P, H>, Result<Option<L>>))
    requires ValidConfig(cfg) && Admissible(cfg, i) && Fitted(cfg, b.device) && Plausible(cfg, f, b.device)
    ensures Fitted(cfg, r.0.device) && r.0.bound == b.bound
  {
    if result.Raised? then (b, Raised)
    else if !i.final then (b, Ok(None))
    else
      var (written, stored) := SlotStep(cfg, b, i.slot, state, f);
      if stored then (written, result) else (written, Raised)
  }

  /** `forward`: refuse while poisoned or on any failed check; a run that raises poisons the scratch. */
  function ForwardStep<S, P, H, L>(cfg: Config, m: Model<S, P, H, L>, s: System<S, P, H>, i: Input, f: Faults<S, P, H>)
    : (r: (System<S, P, H>, Result<Option<L>>))
    requires ValidConfig(cfg) && Fitted(cfg, s.backend.device) && Plausible(cfg, f, s.backend.device)
    ensures Fitted(cfg, r.0.backend.device)
  {
    if s.poisoned || !Admissible(cfg, i) || !Continues(s.active, i) then (s, Raised)
    else
      var (b, result) := RunStep(cfg, m, s.backend, i, f);
      var entered := Active(i.owner, i.start, i.tokens[..i.start], PagePrefix(cfg, i, i.start));
      var attempt := Attempt(i.owner, i.start, i.end, i.final, result.Ok?, DrainStep(s.backend, f.entry).1);
      if result.Raised? then (System(Some(entered), true, b, s.log + [attempt]), Raised)
      else if i.final then (System(None, false, b, s.log + [attempt]), result)
      else
        var advanced := Active(i.owner, i.end, i.tokens[..i.end], i.pages[..PagesFor(cfg.g, i.end)]);
        (System(Some(advanced), false, b, s.log + [attempt]), result)
  }

  /** The pages of the positions before `positions`. */
  function PagePrefix(cfg: Config, i: Input, positions: nat): seq<int>
    requires ValidConfig(cfg) && positions <= i.end && PagesFor(cfg.g, i.end) <= |i.pages|
  {
    QuotientOrder(positions + cfg.g.block - 1, i.end + cfg.g.block - 1, cfg.g.block);
    i.pages[..PagesFor(cfg.g, positions)]
  }

  /** `cancel`: only the live owner may, and only a successful drain frees the scratch. */
  function CancelStep<S, P, H>(s: System<S, P, H>, owner: Owner, fault: bool): (r: (System<S, P, H>, bool)) {
    if s.active.None? || s.active.value.owner != owner then (s, false)
    else
      var (b, ok) := DrainStep(s.backend, fault);
      if ok then (System(None, false, b, s.log + [Cancelled(owner)]), true)
      else (s.(backend := b), false)
  }

  // ----- The classes

  class TPPrefillBackend<S(!new), P(!new), H(!new), L(!new)> {
    const cfg: Config
    const model: Model<S, P, H, L>
    var device: Device<S, P, H>
    var restartRequired: bool
    var failedDma: bool
    var bound: bool

    ghost predicate Valid()
      reads this
    {
      ValidConfig(cfg) && Fitted(cfg, device)
    }

    ghost function View(): Backend<S, P, H>
      reads this
    {
      Backend(device, restartRequired, failedDma, bound)
    }

    constructor (cfg: Config, model: Model<S, P, H, L>, device: Device<S, P, H>)
      requires ValidConfig(cfg) && Fitted(cfg, device)
      ensures Valid() && this.cfg == cfg && this.model == model && View() == Backend(device, false, false, false)
    {
      this.cfg, this.model, this.device := cfg, model, device;
      restartRequired, failedDma, bound := false, false, false;
    }

    method Drain(fault: bool) returns (ok: bool)
      requires Valid()
      modifies this
      ensures Valid() && (View(), ok) == DrainStep(old(View()), fault)
    {
      if restartRequired || failedDma {
        return false;
      }
      restartRequired := fault;
      ok := !fault;
    }

    /** The try block, with the scratch bound. */
    method Try(i: Input, f: Faults<S, P, H>) returns (logits: Result<Option<L>>)
      requires Valid() && Admissible(cfg, i) && Plausible(cfg, f, device)
      modifies this
      ensures Valid() && (View(), logits) == TryStep(cfg, model, old(View()), i, f)
    {
      if i.start == 0 && f.rope {
        return Raised;
      }
      if f.debris.Some? {
        device, failedDma := f.debris.value, failedDma || f.dma;
        return Raised;
      }
      var (tokens, pages, from, n) := RunStepInput(cfg, i);
      var d, output := PrefillTraced(model, cfg.g, device, tokens, pages, from, n, i.final);
      logits := Finish(d, output, i, f);
    }

    /** The try block after the prefill. */
    method Finish(d: Device<S, P, H>, output: Option<L>, i: Input, f: Faults<S, P, H>)
      returns (logits: Result<Option<L>>)
      requires Valid() && Fitted(cfg, d)
      modifies this
      ensures Valid() && (View(), logits) == Finished(old(View()), (d, output), i, f)
    {
      device := d;
      if f.dma {
        failedDma := true;
        return Raised;
      }
      var ok := Drain(f.sync);
      if !ok || (i.final && f.readback) {
        return Raised;
      }
      logits := Ok(output);
    }

    /** The finally block. */
    method Leave(logits: Result<Option<L>>, f: Faults<S, P, H>) returns (ok: bool)
      requires Valid()
      modifies this
      ensures Valid() && (View(), ok) == LeaveStep(old(View()), logits, f)
    {
      ok := Drain(f.exit);
      if ok && logits.Ok? && logits.value.Some? && f.release {
        ok := false;
      }
      bound := f.unbind;
      if f.unbind {
        ok := false;
      }
    }

    method WriteSlot(slot: nat, state: S, f: Faults<S, P, H>) returns (ok: bool)
      requires Valid() && slot < cfg.maxSlots && Plausible(cfg, f, device)
      modifies this
      ensures Valid() && (View(), ok) == SlotStep(cfg, old(View()), slot, state, f)
    {
      if f.slots.Some? {
        device, restartRequired := device.(slots := f.slots.value), true;
        return false;
      }
      device := device.(slots := device.slots[slot := state]);
      ok := Drain(f.slotSync);
      if !ok {
        restartRequired := true;
      }
    }

    method Run(i: Input, f: Faults<S, P, H>) returns (logits: Result<Option<L>>)
      requires Valid() && Admissible(cfg, i) && Plausible(cfg, f, device)
      modifies this
      ensures Valid() && (View(), logits) == RunStep(cfg, model, old(View()), i, f)
    {
      var ok := Drain(f.entry);
      if !ok || f.bind {
        return Raised;
      }
      bound := true;
      var result := Try(i, f);
      var snapshot := device.scratch;
      var clean := Leave(result, f);
      logits := Store(if clean then result else Raised, i, snapshot, f);
    }

    /** What follows the finally block. */
    method Store(result: Result<Option<L>>, i: Input, state: S, f: Faults<S, P, H>) returns (logits: Result<Option<L>>)
      requires Valid() && Admissible(cfg, i) && Plausible(cfg, f, device)
      modifies this
      ensures Valid() && (View(), logits) == StoreStep(cfg, old(View()), result, i, state, f)
    {
      if result.Raised? {
        return Raised;
      }
      if !i.final {
        return Ok(None);
      }
      var stored := WriteSlot(i.slot, state, f);
      logits := if stored then result else Raised;
    }
  }

  class ContinuationController<S(!new), P(!new), H(!new), L(!new)> {
    const backend: TPPrefillBackend<S, P, H, L>
    var active: Option<Active>
    var poisoned: bool
    ghost var log: seq<Event>

    ghost predicate Valid()
      reads this, backend
    {
      backend.Valid()
    }

    ghost function View(): System<S, P, H>
      reads this, backend
    {
      System(active, poisoned, backend.View(), log)
    }

    constructor (backend: TPPrefillBackend<S, P, H, L>)
      requires backend.Valid()
      ensures Valid() && this.backend == backend && View() == System(None, false, backend.View(), [])
    {
      this.backend := backend;
      active, poisoned, log := None, false, [];
    }

    method Cancel(owner: Owner, fault: bool) returns (ok: bool)
      requires Valid()
      modifies this, backend
      ensures Valid() && (View(), ok) == CancelStep(old(View()), owner, fault)
    {
      if active.None? || active.value.owner != owner {
        return false;
      }
      ok := backend.Drain(fault);
      if ok {
        active := None;
        poisoned := false;
        log := log + [Cancelled(owner)];
      }
    }

    method Forward(i: Input, f: Faults<S, P, H>) returns (logits: Result<Option<L>>)
      requires Valid() && Plausible(backend.cfg, f, backend.device)
      modifies this, backend
      ensures Valid() && (View(), logits) == ForwardStep(backend.cfg, backend.model, old(View()), i, f)
    {
      if poisoned || !Admissible(backend.cfg, i) || !Continues(active, i) {
        return Raised;
      }
      ghost var touched := DrainStep(backend.View(), f.entry).1;
      active := Some(Active(i.owner, i.start, i.tokens[..i.start], PagePrefix(backend.cfg, i, i.start)));
      logits := backend.Run(i, f);
      log := log + [Attempt(i.owner, i.start, i.end, i.final, logits.Ok?, touched)];
      if logits.Raised? {
        poisoned := true;
        return;
      }
      if i.final {
        active := None;
      } else {
        active := Some(active.value.(end := i.end, tokens := i.tokens[..i.end],
                                     pages := i.pages[..PagesFor(backend.cfg.g, i.end)]));
      }
    }
  }
}
