/**
 * The replay reader's protocol (scripts/ci/attention_replay.py): staging a position, refreshing the masks, shared-mask
 * scopes with a call budget, calls, failure and closing, as steps on the reader's fields.
 */
module ReplayProtocol {
  import opened ChunkGroups
  import opened Results

  /** What a reader was built for. */
  datatype Family = Family(ladder: Ladder, rows: nat, capacity: int, short: bool, bundles: nat) {
    predicate Admits(start: int) {
      ValidTicket(ladder, start, rows, capacity, short)
    }

    function First(): int {
      FamilyStart(capacity, short)
    }

    /** A family a reader can be opened for: in short context its eight tokens are one bundle. */
    predicate Opens() {
      Admits(First()) && bundles > 0 && (short ==> bundles == 1)
    }
  }

  /** What the mask of a bundle holds: the causal mask at a start, or nothing hidden at all. */
  type Content = Option<int>

  /** The reader's fields, and its masks. `scope` is the call count at which the open shared-mask scope must end. */
  datatype State = State(start: int, calls: nat, refreshes: nat, scope: Option<nat>, failed: bool, closed: bool,
                         masks: seq<Content>)

  /**
   * How far the device gets in a refresh: `at` is the first bundle whose refresh fails (none when it is not a bundle's
   * index), `cleared` whether that bundle's short-context clear was done by then.
   */
  datatype Progress = Progress(at: nat, cleared: bool)

  /** Where staging fails: while the words are laid out, before its try block, or in the copy to the device. */
  datatype StageFault = NoFault | LayingOut | Copying

  /** What happens to a reader. `fault` is a failure of any other device operation of the step. */
  datatype Event =
    | Stage(start: int, failure: StageFault)
    | Refresh(progress: Progress)
    | Enter(expected: int, progress: Progress)
    | Leave(raised: bool)
    | Call(shaped: bool, progress: Progress, fault: bool)
    | Close

  /** `Returned` carries the masks the result was computed under. */
  datatype Outcome = Done | Refused | Returned(masks: seq<Content>)

  /** Every mask is the causal one at `start`. */
  predicate AllAt(masks: seq<Content>, start: int) {
    forall j :: 0 <= j < |masks| ==> masks[j] == Some(start)
  }

  function Opened(f: Family): State {
    State(f.First(), 0, 0, None, false, false, seq(f.bundles, _ => None))
  }

  /** `validate` of a start. */
  predicate Validates(f: Family, s: State, start: int) {
    !s.closed && !s.failed && f.Admits(start)
  }

  function StageStep(f: Family, s: State, start: int, failure: StageFault): (State, Outcome) {
    if !Validates(f, s, start) || s.scope.Some? || failure.LayingOut? then (s, Refused)
    else if failure.Copying? then (s.(failed := true), Refused)
    else (s.(start := start), Done)
  }

  /** What bundle `j`'s mask holds after a refresh that got this far: rewritten, cleared, or as it was. */
  function ContentAfter(f: Family, s: State, p: Progress, j: nat): Content {
    if j < p.at then Some(s.start)
    else if (j == p.at && f.short && p.cleared) || j >= |s.masks| then None
    else s.masks[j]
  }

  function RefreshStep(f: Family, s: State, p: Progress): (State, Outcome) {
    if !Validates(f, s, s.start) then (s, Refused)
    else
      var masks := seq(f.bundles, j requires j >= 0 => ContentAfter(f, s, p, j));
      if p.at < f.bundles then (s.(masks := masks, refreshes := s.refreshes + p.at), Refused)
      else (s.(masks := masks, refreshes := s.refreshes + f.bundles), Done)
  }

  function EnterStep(f: Family, s: State, expected: int, p: Progress): (State, Outcome) {
    if !Validates(f, s, s.start) || !(1 <= expected <= 16) || s.scope.Some? then (s, Refused)
    else
      var (refreshed, outcome) := RefreshStep(f, s.(scope := Some(s.calls + expected)), p);
      if outcome.Refused? then (refreshed.(failed := true, scope := None), Refused) else (refreshed, Done)
  }

  /** Leaving a scope, normally or with an exception from its body; there is nothing to leave outside one. */
  function LeaveStep(s: State, raised: bool): (State, Outcome) {
    if s.scope.None? then (s, Refused)
    else if raised || s.calls != s.scope.value then (s.(failed := true, scope := None), Refused)
    else (s.(scope := None), Done)
  }

  /** A call up to its attention: a refresh outside a scope, the budget inside one, and no device failure. */
  function ReadyStep(f: Family, s: State, p: Progress, fault: bool): (State, Outcome) {
    if s.scope.Some? && s.calls >= s.scope.value then (s.(failed := true), Refused)
    else
      var (ready, outcome) := if s.scope.None? then RefreshStep(f, s, p) else (s, Done);
      if outcome.Refused? || fault then (ready.(failed := true), Refused) else (ready, Done)
  }

  function CallStep(f: Family, s: State, shaped: bool, p: Progress, fault: bool): (State, Outcome) {
    if !Validates(f, s, s.start) || !shaped then (s, Refused)
    else
      var (ready, outcome) := ReadyStep(f, s, p, fault);
      if outcome.Refused? then (ready, Refused) else (ready.(calls := ready.calls + 1), Returned(ready.masks))
  }

  function CloseStep(s: State): (State, Outcome) {
    if s.closed then (s, Done)
    else if s.scope.Some? then (s, Refused)
    else (s.(closed := true), Done)
  }

  function Step(f: Family, s: State, event: Event): (State, Outcome) {
    match event
    case Stage(start, failure) => StageStep(f, s, start, failure)
    case Refresh(p) => RefreshStep(f, s, p)
    case Enter(expected, p) => EnterStep(f, s, expected, p)
    case Leave(raised) => LeaveStep(s, raised)
    case Call(shaped, p, fault) => CallStep(f, s, shaped, p, fault)
    case Close => CloseStep(s)
  }

  // ----- Runs

  /** The reader after the first `n` events. */
  function StateAt(f: Family, events: seq<Event>, n: nat): State
    requires n <= |events|
  {
    if n == 0 then Opened(f) else Step(f, StateAt(f, events, n - 1), events[n - 1]).0
  }

  function OutcomeAt(f: Family, events: seq<Event>, i: nat): Outcome
    requires i < |events|
  {
    Step(f, StateAt(f, events, i), events[i]).1
  }

  /** The start last staged by the first `n` events, as a caller sees it. */
  function LastStaged(f: Family, events: seq<Event>, n: nat): int
    requires n <= |events|
  {
    if n == 0 then f.First()
    else if events[n - 1].Stage? && OutcomeAt(f, events, n - 1).Done? then events[n - 1].start
    else LastStaged(f, events, n - 1)
  }

  /** Whether a shared-mask scope is open after the first `n` events, as a caller sees it. */
  predicate InScope(f: Family, events: seq<Event>, n: nat)
    requires n <= |events|
  {
    n > 0 && (if events[n - 1].Enter? && OutcomeAt(f, events, n - 1).Done? then true
              else if events[n - 1].Leave? then false
              else InScope(f, events, n - 1))
  }

  /** Whether a refresh called directly in the scope has raised after its clear, with none completed after it. */
  predicate Torn(f: Family, events: seq<Event>, n: nat)
    requires n <= |events|
  {
    n > 0 && (match events[n - 1]
              case Enter(_, _) => OutcomeAt(f, events, n - 1).Refused? && Torn(f, events, n - 1)
              case Refresh(p) => OutcomeAt(f, events, n - 1).Refused? && (p.cleared || Torn(f, events, n - 1))
              case _ => Torn(f, events, n - 1))
  }

  /** Results returned by the events from `i` up to `n`. */
  function Answers(f: Family, events: seq<Event>, i: nat, n: nat): nat
    requires i <= n <= |events|
    decreases n - i
  {
    if i == n then 0 else Answers(f, events, i, n - 1) + if OutcomeAt(f, events, n - 1).Returned? then 1 else 0
  }

  /** What the caller's view and the reader's fields have in common. */
  predicate Agrees(f: Family, events: seq<Event>, n: nat)
    requires n <= |events|
  {
    var s := StateAt(f, events, n);
    && s.start == LastStaged(f, events, n) && f.Admits(s.start) && |s.masks| == f.bundles
    && s.scope.Some? == InScope(f, events, n)
    && (s.scope.Some? && !s.failed ==>
          !s.closed && if f.short && Torn(f, events, n) then s.masks == [None] else AllAt(s.masks, s.start))
  }

  /** A refresh that ends leaves every mask at the start; one that raises keeps masks at it, unless it cleared. */
  lemma RefreshContent(f: Family, s: State, p: Progress)
    requires f.Opens() && Validates(f, s, s.start) && |s.masks| == f.bundles
    ensures var (next, outcome) := RefreshStep(f, s, p);
      if outcome.Done? then AllAt(next.masks, s.start)
      else if f.short && (p.cleared || s.masks == [None]) then next.masks == [None]
      else AllAt(s.masks, s.start) ==> AllAt(next.masks, s.start)
  {
  }

  lemma {:induction false} FieldsAgree(f: Family, events: seq<Event>, n: nat)
    requires n <= |events| && f.Opens()
    ensures Agrees(f, events, n)
  {
    if n > 0 {
      FieldsAgree(f, events, n - 1);
      var s, event := StateAt(f, events, n - 1), events[n - 1];
      assert StateAt(f, events, n) == Step(f, s, event).0 && OutcomeAt(f, events, n - 1) == Step(f, s, event).1;
      AgreementKept(f, events, n);
    }
  }

  lemma AgreementKept(f: Family, events: seq<Event>, n: nat)
    requires 0 < n <= |events| && f.Opens() && Agrees(f, events, n - 1)
    ensures Agrees(f, events, n)
  {
    var s, event := StateAt(f, events, n - 1), events[n - 1];
    if Validates(f, s, s.start) {
      match event
      case Refresh(p) => RefreshContent(f, s, p);
      case Enter(expected, p) =>
        if expected >= 1 {
          RefreshContent(f, s.(scope := Some(s.calls + expected)), p);
        }
      case _ =>
    }
  }

  /**
   * In long context every result of every run is computed under the causal masks at the start staged last, even after
   * refreshes of the caller's own were interrupted. In short context one is unless the caller kept calling inside a
   * scope in which such a refresh had raised after its clear; then nothing is hidden.
   */
  lemma ResultsUseLastStagedStart(f: Family, events: seq<Event>, i: nat)
    requires i < |events| && f.Opens() && OutcomeAt(f, events, i).Returned?
    ensures AllAt(OutcomeAt(f, events, i).masks, LastStaged(f, events, i)) <==>
            !(f.short && InScope(f, events, i) && Torn(f, events, i))
    ensures f.short && InScope(f, events, i) && Torn(f, events, i) ==> OutcomeAt(f, events, i).masks == [None]
  {
    FieldsAgree(f, events, i);
    var s, event := StateAt(f, events, i), events[i];
    if s.scope.None? {
      RefreshContent(f, s, event.progress);
    } else if s.masks == [None] {
      assert s.masks[0] == None;
    }
  }

  // ----- What succeeds

  /** The answers still due in the scope opened last, as a caller counts them. */
  function Due(f: Family, events: seq<Event>, n: nat): int
    requires n <= |events|
  {
    if n == 0 then 0
    else if events[n - 1].Enter? && OutcomeAt(f, events, n - 1).Done? then events[n - 1].expected
    else Due(f, events, n - 1) - if OutcomeAt(f, events, n - 1).Returned? then 1 else 0
  }

  /** An operation that does not get to the end of its refresh. */
  predicate Interrupted(f: Family, p: Progress) { p.at < f.bundles }

  /** Event `j` fails or closes a reader that works, by what a caller did before and what the device does in it. */
  predicate Breaks(f: Family, events: seq<Event>, j: nat)
    requires j < |events|
  {
    match events[j]
    case Stage(start, failure) => failure.Copying? && f.Admits(start) && !InScope(f, events, j)
    case Refresh(_) => false
    case Enter(expected, p) => 1 <= expected <= 16 && !InScope(f, events, j) && Interrupted(f, p)
    case Leave(raised) => InScope(f, events, j) && (raised || Due(f, events, j) != 0)
    case Call(shaped, p, fault) =>
      shaped && (fault || if InScope(f, events, j) then Due(f, events, j) == 0 else Interrupted(f, p))
    case Close => !InScope(f, events, j)
  }

  /** None of the first `n` events failed or closed the reader. */
  predicate Working(f: Family, events: seq<Event>, n: nat)
    requires n <= |events|
  {
    forall j :: 0 <= j < n ==> !Breaks(f, events, j)
  }

  /** The fields know whether the reader works and how many answers are due. */
  predicate Knows(f: Family, events: seq<Event>, n: nat)
    requires n <= |events|
  {
    var s := StateAt(f, events, n);
    && (Working(f, events, n) <==> !s.failed && !s.closed) && (s.closed ==> s.scope.None?)
    && (s.scope.Some? ==> s.calls <= s.scope.value && Due(f, events, n) == s.scope.value - s.calls)
  }

  lemma WorkingOn(f: Family, events: seq<Event>, n: nat)
    requires 0 < n <= |events|
    ensures Working(f, events, n) <==> Working(f, events, n - 1) && !Breaks(f, events, n - 1)
  {
  }

  lemma RefreshKeeps(f: Family, s: State, p: Progress)
    requires Validates(f, s, s.start)
    ensures var (next, outcome) := RefreshStep(f, s, p);
      && (outcome.Done? <==> !Interrupted(f, p)) && !outcome.Returned?
      && next == s.(masks := next.masks, refreshes := next.refreshes)
  {
  }

  lemma KnowledgeKept(f: Family, events: seq<Event>, n: nat)
    requires 0 < n <= |events| && f.Opens() && Agrees(f, events, n - 1) && Knows(f, events, n - 1)
    ensures Knows(f, events, n)
  {
    var s, event := StateAt(f, events, n - 1), events[n - 1];
    WorkingOn(f, events, n);
    if Validates(f, s, s.start) {
      match event
      case Refresh(p) => RefreshKeeps(f, s, p);
      case Enter(expected, p) =>
        if expected >= 1 {
          RefreshKeeps(f, s.(scope := Some(s.calls + expected)), p);
        }
      case Call(_, p, _) => RefreshKeeps(f, s, p);
      case _ =>
    }
  }

  lemma {:induction false} FieldsKnow(f: Family, events: seq<Event>, n: nat)
    requires n <= |events| && f.Opens()
    ensures Knows(f, events, n)
  {
    if n > 0 {
      FieldsKnow(f, events, n - 1);
      FieldsAgree(f, events, n - 1);
      KnowledgeKept(f, events, n);
    }
  }

  /** Whether event `i` succeeds, by what a caller did before and what the device does in it. */
  predicate Succeeds(f: Family, events: seq<Event>, i: nat)
    requires i < |events|
  {
    var working, scoped := Working(f, events, i), InScope(f, events, i);
    match events[i]
    case Stage(start, failure) => working && !scoped && f.Admits(start) && failure.NoFault?
    case Refresh(p) => working && !Interrupted(f, p)
    case Enter(expected, p) => working && !scoped && 1 <= expected <= 16 && !Interrupted(f, p)
    case Leave(raised) => scoped && !raised && Due(f, events, i) == 0
    case Call(shaped, p, fault) =>
      working && shaped && !fault && if scoped then Due(f, events, i) > 0 else !Interrupted(f, p)
    case Close => !scoped
  }

  /**
   * Over every run an event succeeds exactly when a caller expects it to. A start can be staged, forwards or backwards,
   * if and only if the ticket check holds for it, no scope is open, nothing failed or closed the reader before, and the
   * device does its part; a call returns if and only if nothing failed or closed the reader before, the query fits, the
   * device does its part, and inside a scope an answer is still due.
   */
  lemma SucceedsExactlyWhen(f: Family, events: seq<Event>, i: nat)
    requires i < |events| && f.Opens()
    ensures OutcomeAt(f, events, i) != Refused <==> Succeeds(f, events, i)
    ensures OutcomeAt(f, events, i).Returned? <==> events[i].Call? && Succeeds(f, events, i)
  {
    FieldsAgree(f, events, i);
    FieldsKnow(f, events, i);
    var s, event := StateAt(f, events, i), events[i];
    if Validates(f, s, s.start) {
      match event
      case Refresh(p) => RefreshKeeps(f, s, p);
      case Enter(expected, p) =>
        if expected >= 1 {
          RefreshKeeps(f, s.(scope := Some(s.calls + expected)), p);
        }
      case Call(_, p, _) => RefreshKeeps(f, s, p);
      case _ =>
    }
  }

  /** A refresh begins in event `j`: one a caller asks for, a scope's, or a call's outside a scope. */
  predicate Refreshes(f: Family, events: seq<Event>, j: nat)
    requires j < |events|
  {
    Working(f, events, j) &&
    match events[j]
    case Refresh(_) => true
    case Enter(expected, _) => 1 <= expected <= 16 && !InScope(f, events, j)
    case Call(shaped, _, _) => shaped && !InScope(f, events, j)
    case _ => false
  }

  /** The masks rewritten by the first `n` events: in each refresh, those before the one that failed. */
  function Rewritten(f: Family, events: seq<Event>, n: nat): nat
    requires n <= |events|
  {
    if n == 0 then 0
    else
      Rewritten(f, events, n - 1) +
      if !Refreshes(f, events, n - 1) then 0
      else if Interrupted(f, events[n - 1].progress) then events[n - 1].progress.at else f.bundles
  }

  /** Over every run the counters are the results returned and the masks rewritten. */
  lemma {:induction false} CountersCount(f: Family, events: seq<Event>, n: nat)
    requires n <= |events| && f.Opens()
    ensures StateAt(f, events, n).calls == Answers(f, events, 0, n)
    ensures StateAt(f, events, n).refreshes == Rewritten(f, events, n)
  {
    if n > 0 {
      CountersCount(f, events, n - 1);
      FieldsAgree(f, events, n - 1);
      FieldsKnow(f, events, n - 1);
      CountersKept(f, events, n);
    }
  }

  lemma CountersKept(f: Family, events: seq<Event>, n: nat)
    requires 0 < n <= |events| && Agrees(f, events, n - 1) && Knows(f, events, n - 1)
    ensures var s, next := StateAt(f, events, n - 1), StateAt(f, events, n);
      && next.calls == s.calls + (if OutcomeAt(f, events, n - 1).Returned? then 1 else 0)
      && next.refreshes == s.refreshes + Rewritten(f, events, n) - Rewritten(f, events, n - 1)
  {
  }

  /** A refresh that raises after its clear inside a scope, and is ignored: nothing is hidden in short context. */
  lemma TornScopeReturns(f: Family)
    requires f.Opens()
    ensures var events := [Enter(1, Progress(f.bundles, false)), Refresh(Progress(0, true)),
                           Call(true, Progress(0, false), false)];
      && OutcomeAt(f, events, 2).Returned?
      && (if f.short then OutcomeAt(f, events, 2).masks == [None] else AllAt(OutcomeAt(f, events, 2).masks, f.First()))
  {
    var events := [Enter(1, Progress(f.bundles, false)), Refresh(Progress(0, true)),
                   Call(true, Progress(0, false), false)];
    assert StateAt(f, events, 0) == Opened(f);
    assert StateAt(f, events, 1) == Step(f, Opened(f), events[0]).0;
    assert StateAt(f, events, 2) == Step(f, StateAt(f, events, 1), events[1]).0;
    ResultsUseLastStagedStart(f, events, 2);
  }

  /** Entering a scope, a refresh of the caller's own whose exception is swallowed, and a call. */
  lemma SwallowedStep(f: Family, s: State, p: Progress)
    requires f.Opens() && Validates(f, s, s.start) && s.scope.None? && |s.masks| == f.bundles
    ensures var entered := EnterStep(f, s, 1, Progress(f.bundles, false)).0;
      var refreshed := RefreshStep(f, entered, p).0;
      var (called, outcome) := CallStep(f, refreshed, true, Progress(0, false), false);
      && called.start == s.start && outcome == Returned(called.masks)
      && (if f.short && p.at == 0 && p.cleared then called.masks == [None] else AllAt(called.masks, s.start))
  {
    var scoped := s.(scope := Some(s.calls + 1));
    RefreshContent(f, scoped, Progress(f.bundles, false));
    RefreshContent(f, EnterStep(f, s, 1, Progress(f.bundles, false)).0, p);
  }

  lemma FailedStep(f: Family, s: State, event: Event)
    requires s.failed || s.closed
    ensures Step(f, s, event).0.failed || Step(f, s, event).0.closed
    ensures !Step(f, s, event).1.Returned?
  {
  }

  /** Inside a scope a step that leaves it open keeps its limit and counts its result. */
  lemma ScopedStep(f: Family, s: State, event: Event)
    requires s.scope.Some? && Step(f, s, event).0.scope.Some?
    ensures Step(f, s, event).0.scope == s.scope
    ensures Step(f, s, event).0.calls == s.calls + if Step(f, s, event).1.Returned? then 1 else 0
  {
  }

  lemma EnteredStep(f: Family, s: State, event: Event)
    requires event.Enter? && Step(f, s, event).1.Done?
    ensures Step(f, s, event).0.scope == Some(s.calls + event.expected) && Step(f, s, event).0.calls == s.calls
  {
  }

  /** A failed or closed reader stays so and never returns a result. */
  lemma {:induction false} FailedReaderNeverReturns(f: Family, events: seq<Event>, i: nat, j: nat)
    requires i <= j < |events| && (StateAt(f, events, i).failed || StateAt(f, events, i).closed)
    ensures StateAt(f, events, j).failed || StateAt(f, events, j).closed
    ensures !OutcomeAt(f, events, j).Returned?
    decreases j - i
  {
    if i < j {
      FailedReaderNeverReturns(f, events, i, j - 1);
      FailedStep(f, StateAt(f, events, j - 1), events[j - 1]);
    }
    FailedStep(f, StateAt(f, events, j), events[j]);
  }

  /** Inside a scope the call count is that at its entry plus the results since. */
  lemma {:induction false} ScopeCounts(f: Family, events: seq<Event>, i: nat, n: nat)
    requires i < n <= |events| && f.Opens()
    requires events[i].Enter? && OutcomeAt(f, events, i).Done?
    requires forall k :: i < k <= n ==> InScope(f, events, k)
    ensures StateAt(f, events, n).calls == StateAt(f, events, i).calls + Answers(f, events, i + 1, n)
    ensures StateAt(f, events, n).scope == Some(StateAt(f, events, i).calls + events[i].expected)
    decreases n
  {
    FieldsAgree(f, events, n - 1);
    FieldsAgree(f, events, n);
    if n > i + 1 {
      ScopeCounts(f, events, i, n - 1);
      ScopedStep(f, StateAt(f, events, n - 1), events[n - 1]);
    } else {
      EnteredStep(f, StateAt(f, events, i), events[i]);
    }
  }

  /** A scope completes normally exactly after its budget, between one and sixteen results. */
  lemma ScopesConsumeTheirBudget(f: Family, events: seq<Event>, i: nat, j: nat)
    requires i < j < |events| && f.Opens()
    requires events[i].Enter? && OutcomeAt(f, events, i).Done? && events[j].Leave?
    requires forall k :: i < k <= j ==> InScope(f, events, k)
    ensures OutcomeAt(f, events, j).Done? <==> !events[j].raised && Answers(f, events, i + 1, j) == events[i].expected
    ensures 1 <= events[i].expected <= 16 && Answers(f, events, i + 1, j) <= events[i].expected
  {
    ScopeCounts(f, events, i, j);
    BudgetHolds(f, events, i, j);
  }

  lemma {:induction false} BudgetHolds(f: Family, events: seq<Event>, i: nat, n: nat)
    requires i < n <= |events| && f.Opens()
    requires events[i].Enter? && OutcomeAt(f, events, i).Done?
    requires forall k :: i < k <= n ==> InScope(f, events, k)
    ensures Answers(f, events, i + 1, n) <= events[i].expected
    decreases n
  {
    if n > i + 1 {
      ScopeCounts(f, events, i, n - 1);
      BudgetHolds(f, events, i, n - 1);
    }
  }
}
