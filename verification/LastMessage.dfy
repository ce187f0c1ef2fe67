/**
 * The last resort of `Stream.merge` (scripts/ci/c2_parser_rechunk.py:237-240): when no message can be built at all the
 * client gets the last sub-message, whose call objects coalescing may have changed.
 */
module LastMessage {
  import opened DeltaMerge
  import opened Results

  // ----- The calls of the last message after those of the earlier ones

  predicate Occurs(calls: seq<Call>, index: int) {
    exists p :: 0 <= p < |calls| && calls[p].index == index
  }

  function Entry(calls: seq<Call>, index: int): Call { EntryOf(calls, |calls|, index) }

  function Lender(calls: seq<Call>, index: int): Option<nat> { LenderOf(calls, |calls|, index) }

  /** What the last message's calls hold once all calls were coalesced. */
  function LastCalls(earlier: seq<Call>, last: seq<Call>): (calls: seq<Call>)
    ensures |calls| == |last|
    ensures forall p :: 0 <= p < |last| ==> calls[p] == CallAfter(earlier + last, |earlier + last|, |earlier| + p)
  {
    Relisted(earlier + last)[|earlier|..]
  }

  /** The two lists have the same calls of an index at the same places. */
  predicate AgreeAt(a: seq<Call>, b: seq<Call>, n: nat, index: int) {
    && n <= |a| && n <= |b|
    && forall p :: 0 <= p < n ==> (a[p].index == index || b[p].index == index ==> a[p] == b[p])
  }

  lemma {:induction false} SameEntry(a: seq<Call>, b: seq<Call>, n: nat, index: int)
    requires AgreeAt(a, b, n, index)
    ensures EntryOf(a, n, index) == EntryOf(b, n, index) && LenderOf(a, n, index) == LenderOf(b, n, index)
  {
    if n > 0 {
      SameEntry(a, b, n - 1, index);
    }
  }

  lemma FilledAssociates(a: Call, b: Call, c: Call)
    ensures Filled(Filled(a, b), c) == Filled(a, Filled(b, c))
  {
    AppendAssociates(ArgumentsOf(a), ArgumentsOf(b), ArgumentsOf(c));
  }

  /** The entry of all calls is that of the earlier ones with that of the last ones filled in. */
  lemma {:induction false} EntryJoins(earlier: seq<Call>, last: seq<Call>, k: nat, index: int)
    requires k <= |last|
    ensures EntryOf(earlier + last, |earlier| + k, index) == Filled(Entry(earlier, index), EntryOf(last, k, index))
    ensures LenderOf(earlier + last, |earlier| + k, index) ==
            if Lender(earlier, index).Some? then Lender(earlier, index)
            else if LenderOf(last, k, index).None? then None
            else Some(|earlier| + LenderOf(last, k, index).value)
  {
    if k == 0 {
      SameEntry(earlier + last, earlier, |earlier|, index);
    } else {
      EntryJoins(earlier, last, k - 1, index);
      if last[k - 1].index == index {
        FilledAssociates(Entry(earlier, index), EntryOf(last, k - 1, index), last[k - 1]);
      }
    }
  }

  lemma FirstJoins(earlier: seq<Call>, last: seq<Call>, p: nat)
    requires p < |last|
    ensures IsFirst(earlier + last, |earlier| + p) <==> !Occurs(earlier, last[p].index) && IsFirst(last, p)
  {
    var calls := earlier + last;
    if IsFirst(calls, |earlier| + p) {
      forall q | 0 <= q < |earlier| ensures earlier[q].index != last[p].index {
        assert calls[q] == earlier[q];
      }
      forall q | 0 <= q < p ensures last[q].index != last[p].index {
        assert calls[|earlier| + q] == last[q];
      }
    }
  }

  /**
   * A call of an index the earlier messages have is as it was, unless it lent the entry its function; one of another
   * index is what coalescing the last message alone would leave.
   */
  lemma LastCall(earlier: seq<Call>, last: seq<Call>, p: nat)
    requires p < |last|
    ensures var index := last[p].index;
      LastCalls(earlier, last)[p] ==
      if !Occurs(earlier, index) then Relisted(last)[p]
      else if Lender(earlier, index).None? && Lender(last, index) == Some(p) then
        last[p].(func := Entry(last, index).func)
      else last[p]
  {
    var index := last[p].index;
    EntryJoins(earlier, last, |last|, index);
    FirstJoins(earlier, last, p);
    LenderFills(earlier, |earlier|, index);
    if !Occurs(earlier, index) {
      NoEntryYet(earlier, |earlier|, index);
    }
  }

  // ----- When they are enough

  /** A value or text that comes first changes nothing of the one that follows it. */
  predicate AddsNone<T(==)>(first: Option<T>, later: Option<T>) { first.None? || first == later }

  predicate Silent(first: Option<string>, later: Option<string>) {
    first.None? || (first == Some("") && later.Some?)
  }

  lemma SilentText(first: Option<string>, later: Option<string>)
    ensures Silent(first, later) <==> Append(first, later) == later
  {
    if first.Some? && later.Some? {
      assert |first.value + later.value| == |first.value| + |later.value|;
      assert first.value == "" ==> first.value + later.value == later.value;
    }
  }

  /** The later entry of an index repeats what the earlier one says, which has no arguments. */
  predicate Repeats(earlier: Call, later: Call) {
    && AddsNone(earlier.id, later.id) && AddsNone(earlier.kind, later.kind) && AddsNone(NameOf(earlier), NameOf(later))
    && Silent(ArgumentsOf(earlier), ArgumentsOf(later))
  }

  /** No call of the index after call `p` has arguments. */
  predicate ArglessAfter(calls: seq<Call>, p: nat, index: int) {
    forall q :: p < q < |calls| && calls[q].index == index ==> Argless(calls[q])
  }

  /**
   * The last message says all there is to say of an index: what the earlier ones say it repeats, and nothing that its
   * calls were given by coalescing is followed by arguments.
   */
  predicate Suffices(earlier: seq<Call>, last: seq<Call>, index: int) {
    if !Occurs(earlier, index) then ArglessAt(last, index)
    else
      && Occurs(last, index) && Repeats(Entry(earlier, index), Entry(last, index))
      && (Lender(earlier, index).None? && Lender(last, index).Some? ==>
            ArglessAfter(last, Lender(last, index).value, index))
  }

  predicate CallsSuffice(earlier: seq<Call>, last: seq<Call>) {
    forall p :: 0 <= p < |earlier + last| ==> Suffices(earlier, last, (earlier + last)[p].index)
  }

  /** The entries leave a client with the same view. */
  predicate SameMeaning(a: Call, b: Call) {
    a.id == b.id && a.kind == b.kind && NameOf(a) == NameOf(b) && ArgumentsOf(a) == ArgumentsOf(b)
  }

  lemma RepeatsMeaning(earlier: Call, later: Call)
    ensures Repeats(earlier, later) <==> SameMeaning(later, Filled(earlier, later))
  {
    SilentText(ArgumentsOf(earlier), ArgumentsOf(later));
  }

  /** The entry of the last calls as far as the lender's function went in, if nothing after it has arguments. */
  lemma {:induction false} LentEntry(earlier: seq<Call>, last: seq<Call>, index: int, k: nat)
    requires k <= |last| && Occurs(earlier, index) && Lender(earlier, index).None? && Lender(last, index).Some?
    requires ArglessAfter(last, Lender(last, index).value, index)
    ensures EntryOf(LastCalls(earlier, last), k, index) ==
            if k <= Lender(last, index).value then EntryOf(last, k, index)
            else EntryOf(last, k, index).(func := Entry(last, index).func)
  {
    if k > 0 {
      var p, lender := k - 1, Lender(last, index).value;
      LentEntry(earlier, last, index, p);
      assert LastCalls(earlier, last)[p].index == last[p].index;
      if last[p].index == index {
        LastCall(earlier, last, p);
        EntryCollects(last, |last|, p);
        if p == lender {
          NoFunctionYet(last, |last|, index, p);
        } else if p > lender {
          AppendsNothing(ArgumentsOf(Entry(last, index)), ArgumentsOf(last[p]));
          EntryCollects(last, p, lender);
        }
      }
    }
  }

  lemma {:induction false} NoFunctionYet(calls: seq<Call>, n: nat, index: int, p: nat)
    requires n <= |calls| && LenderOf(calls, n, index) == Some(p)
    ensures EntryOf(calls, p, index).func.None?
  {
    if LenderOf(calls, n - 1, index).Some? {
      NoFunctionYet(calls, n - 1, index, p);
    } else {
      LenderFills(calls, n - 1, index);
    }
  }

  /** An index only the last message has: its calls are those of relisting that message alone. */
  lemma NewIndex(earlier: seq<Call>, last: seq<Call>, index: int)
    requires !Occurs(earlier, index)
    ensures ArglessAt(last, index) <==>
            SameMeaning(Entry(LastCalls(earlier, last), index), Entry(earlier + last, index))
  {
    assert Entry(LastCalls(earlier, last), index) == Entry(Relisted(last), index) by {
      NewCalls(earlier, last, index);
      SameEntry(LastCalls(earlier, last), Relisted(last), |last|, index);
    }
    assert Entry(earlier + last, index) == Entry(last, index) by {
      EntryJoins(earlier, last, |last|, index);
      NoEntryYet(earlier, |earlier|, index);
    }
    NewMeaning(last, index);
  }

  lemma NewCalls(earlier: seq<Call>, last: seq<Call>, index: int)
    requires !Occurs(earlier, index)
    ensures AgreeAt(LastCalls(earlier, last), Relisted(last), |last|, index)
  {
    forall p | 0 <= p < |last| && last[p].index == index ensures LastCalls(earlier, last)[p] == Relisted(last)[p] {
      LastCall(earlier, last, p);
    }
    forall p | 0 <= p < |last| ensures LastCalls(earlier, last)[p].index == last[p].index == Relisted(last)[p].index {
      LastCall(earlier, last, p);
    }
  }

  lemma NewMeaning(last: seq<Call>, index: int)
    ensures ArglessAt(last, index) <==> SameMeaning(Entry(Relisted(last), index), Entry(last, index))
  {
    if ArglessAt(last, index) {
      RelistedEntry(last, |last|, index);
      if !Occurs(last, index) {
        NoEntryYet(last, |last|, index);
      }
    } else {
      var p :| 0 <= p < |last| && last[p].index == index && !IsFirst(last, p) && !Argless(last[p]);
      RelistedIsLonger(last, p);
      EntryLength(last, |last|, index);
      EntryLength(Relisted(last), |last|, index);
    }
  }

  /** An index of earlier calls, none of the last ones being changed: they say what they said. */
  lemma KeptIndex(earlier: seq<Call>, last: seq<Call>, index: int)
    requires Occurs(earlier, index) && !(Lender(earlier, index).None? && Lender(last, index).Some?)
    ensures Repeats(Entry(earlier, index), Entry(last, index)) <==>
            SameMeaning(Entry(LastCalls(earlier, last), index), Entry(earlier + last, index))
  {
    var calls := LastCalls(earlier, last);
    forall p | 0 <= p < |last| && (calls[p].index == index || last[p].index == index) ensures calls[p] == last[p] {
      LastCall(earlier, last, p);
    }
    SameEntry(calls, last, |last|, index);
    EntryJoins(earlier, last, |last|, index);
    RepeatsMeaning(Entry(earlier, index), Entry(last, index));
  }

  /** An index whose function one of the last calls lent, so that it holds all arguments. */
  lemma LentIndex(earlier: seq<Call>, last: seq<Call>, index: int)
    requires Occurs(earlier, index) && Lender(earlier, index).None? && Lender(last, index).Some?
    ensures Repeats(Entry(earlier, index), Entry(last, index)) &&
            ArglessAfter(last, Lender(last, index).value, index) <==>
            SameMeaning(Entry(LastCalls(earlier, last), index), Entry(earlier + last, index))
  {
    var e, t, lender := Entry(earlier, index), Entry(last, index), Lender(last, index).value;
    EntryJoins(earlier, last, |last|, index);
    RepeatsMeaning(e, t);
    LenderFills(earlier, |earlier|, index);
    if ArglessAfter(last, lender, index) {
      LentEntry(earlier, last, index, |last|);
    } else {
      var q :| lender < q < |last| && last[q].index == index && !Argless(last[q]);
      LentLonger(earlier, last, index, q);
    }
  }

  /** Arguments after the lender's call come twice. */
  lemma LentLonger(earlier: seq<Call>, last: seq<Call>, index: int, q: nat)
    requires Occurs(earlier, index) && Lender(earlier, index).None? && Lender(last, index).Some?
    requires Lender(last, index).value < q < |last| && last[q].index == index && !Argless(last[q])
    ensures Length(ArgumentsOf(Entry(LastCalls(earlier, last), index))) > Length(ArgumentsOf(Entry(last, index)))
  {
    var calls, lender := LastCalls(earlier, last), Lender(last, index).value;
    LastCall(earlier, last, lender);
    LastCall(earlier, last, q);
    PartOfTotal(calls, q, lender);
    PartOfTotal(calls, |calls|, q);
    EntryLength(calls, |calls|, index);
  }

  lemma OccursJoins(earlier: seq<Call>, last: seq<Call>, index: int)
    ensures Occurs(earlier + last, index) <==> Occurs(earlier, index) || Occurs(last, index)
  {
    var calls := earlier + last;
    if p :| 0 <= p < |earlier| && earlier[p].index == index {
      assert calls[p] == earlier[p];
    }
    if p :| 0 <= p < |last| && last[p].index == index {
      assert calls[|earlier| + p] == last[p];
    }
  }

  lemma OccursLast(earlier: seq<Call>, last: seq<Call>, index: int)
    ensures Occurs(LastCalls(earlier, last), index) <==> Occurs(last, index)
  {
    var calls := LastCalls(earlier, last);
    forall p | 0 <= p < |last| ensures calls[p].index == last[p].index {
      LastCall(earlier, last, p);
    }
  }

  lemma SufficesMeaning(earlier: seq<Call>, last: seq<Call>, index: int)
    requires Occurs(earlier + last, index)
    ensures Suffices(earlier, last, index) <==>
            Occurs(last, index) && SameMeaning(Entry(LastCalls(earlier, last), index), Entry(earlier + last, index))
  {
    OccursJoins(earlier, last, index);
    if !Occurs(earlier, index) {
      NewIndex(earlier, last, index);
    } else if Lender(earlier, index).None? && Lender(last, index).Some? {
      LentIndex(earlier, last, index);
    } else {
      KeptIndex(earlier, last, index);
    }
  }

  /** What a client holds for an index after the calls. */
  lemma ViewAfter(tools: map<int, ToolView>, calls: seq<Call>, index: int)
    ensures ViewAt(ReceiveCalls(tools, calls), index) == Updated(ViewAt(tools, index), Entry(calls, index))
    ensures index in ReceiveCalls(tools, calls) <==> index in tools || Occurs(calls, index)
  {
    assert calls[..|calls|] == calls;
    ViewOfEntry(tools, calls, |calls|, index);
  }

  /** A client with these calls so far cannot tell the last calls from all of them. */
  ghost predicate SameTo(tools: map<int, ToolView>, earlier: seq<Call>, last: seq<Call>) {
    ReceiveCalls(tools, LastCalls(earlier, last)) == ReceiveCalls(tools, earlier + last)
  }

  /** The last calls alone mean what all calls do to every client exactly when they suffice. */
  lemma LastCallsMeanTheSame(earlier: seq<Call>, last: seq<Call>)
    ensures (forall tools: map<int, ToolView> :: SameTo(tools, earlier, last)) <==> CallsSuffice(earlier, last)
  {
    if CallsSuffice(earlier, last) {
      forall tools: map<int, ToolView> ensures SameTo(tools, earlier, last) {
        SufficientCalls(tools, earlier, last);
      }
    } else if SameTo(NEW_CLIENT.tools, earlier, last) {
      NeededCalls(earlier, last);
    }
  }

  lemma NeededCalls(earlier: seq<Call>, last: seq<Call>)
    requires SameTo(NEW_CLIENT.tools, earlier, last)
    ensures CallsSuffice(earlier, last)
  {
    var calls := earlier + last;
    forall p | 0 <= p < |calls| ensures Suffices(earlier, last, calls[p].index) {
      NeededIndex(earlier, last, calls[p].index);
    }
  }

  lemma NeededIndex(earlier: seq<Call>, last: seq<Call>, index: int)
    requires SameTo(NEW_CLIENT.tools, earlier, last)
    requires Occurs(earlier + last, index)
    ensures Suffices(earlier, last, index)
  {
    ViewAfter(NEW_CLIENT.tools, LastCalls(earlier, last), index);
    ViewAfter(NEW_CLIENT.tools, earlier + last, index);
    OccursLast(earlier, last, index);
    SufficesMeaning(earlier, last, index);
  }

  lemma SufficientCalls(tools: map<int, ToolView>, earlier: seq<Call>, last: seq<Call>)
    requires CallsSuffice(earlier, last)
    ensures SameTo(tools, earlier, last)
  {
    var one, two := ReceiveCalls(tools, LastCalls(earlier, last)), ReceiveCalls(tools, earlier + last);
    forall index: int ensures index in one.Keys <==> index in two.Keys {
      SufficientView(tools, earlier, last, index);
    }
    assert one.Keys == two.Keys;
    forall index | index in one ensures one[index] == two[index] {
      SufficientView(tools, earlier, last, index);
      assert one[index] == ViewAt(one, index) && two[index] == ViewAt(two, index);
    }
  }

  lemma SufficientView(tools: map<int, ToolView>, earlier: seq<Call>, last: seq<Call>, index: int)
    requires CallsSuffice(earlier, last)
    ensures var one, two := ReceiveCalls(tools, LastCalls(earlier, last)), ReceiveCalls(tools, earlier + last);
      (index in one <==> index in two) && ViewAt(one, index) == ViewAt(two, index)
  {
    var calls := earlier + last;
    ViewAfter(tools, LastCalls(earlier, last), index);
    ViewAfter(tools, calls, index);
    OccursLast(earlier, last, index);
    if Occurs(calls, index) {
      SufficesMeaning(earlier, last, index);
    } else {
      OccursJoins(earlier, last, index);
      NoEntryYet(calls, |calls|, index);
      NoEntryYet(LastCalls(earlier, last), |last|, index);
    }
  }

  // ----- Messages

  /** All messages but the last in one. */
  function Earlier(present: seq<Message>): Message
    requires present != []
  {
    Combined(present[..|present| - 1])
  }

  /** The last message says all that the messages say. */
  predicate LastSuffices(present: seq<Message>)
    requires present != []
  {
    var earlier, last := Earlier(present), present[|present| - 1];
    && AddsNone(earlier.role, last.role) && Silent(earlier.content, last.content)
    && Silent(earlier.reasoning, last.reasoning) && CallsSuffice(earlier.calls, last.calls)
  }

  /** To a client the last message means what all do, for every client exactly when it suffices. */
  lemma LastMessageMeansTheSame(present: seq<Message>)
    requires present != []
    ensures (forall client: Client ::
               Receive(client, LastRelisted(present)) == Receive(client, Combined(present))) <==> LastSuffices(present)
  {
    if LastSuffices(present) {
      forall client: Client ensures Receive(client, LastRelisted(present)) == Receive(client, Combined(present)) {
        SufficientMessage(client, present);
      }
    }
    if Receive(NEW_CLIENT, LastRelisted(present)) == Receive(NEW_CLIENT, Combined(present)) {
      NeededMessage(present);
    }
  }

  lemma SufficientMessage(client: Client, present: seq<Message>)
    requires present != [] && LastSuffices(present)
    ensures Receive(client, LastRelisted(present)) == Receive(client, Combined(present))
  {
    var earlier, last := Earlier(present), present[|present| - 1];
    SilentText(earlier.content, last.content);
    SilentText(earlier.reasoning, last.reasoning);
    SufficientCalls(client.tools, earlier.calls, last.calls);
    assert LastRelisted(present).calls == LastCalls(earlier.calls, last.calls);
  }

  lemma NeededMessage(present: seq<Message>)
    requires present != []
    requires Receive(NEW_CLIENT, LastRelisted(present)) == Receive(NEW_CLIENT, Combined(present))
    ensures LastSuffices(present)
  {
    var earlier, last := Earlier(present), present[|present| - 1];
    SilentText(earlier.content, last.content);
    SilentText(earlier.reasoning, last.reasoning);
    assert LastRelisted(present).calls == LastCalls(earlier.calls, last.calls);
    NeededCalls(earlier.calls, last.calls);
  }
}
