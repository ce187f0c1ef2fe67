/**
 * Merging the results of sub-deltas into one message (`merge` and `coalesce` of scripts/ci/c2_parser_rechunk.py), and
 * what a streaming client makes of a message.
 */
module DeltaMerge {
  import opened Results

  // ----- Values

  datatype Function = Function(name: Option<string>, arguments: Option<string>)

  datatype Call = Call(index: int, id: Option<string>, kind: Option<string>, func: Option<Function>)

  datatype Message = Message(role: Option<string>, content: Option<string>, reasoning: Option<string>, calls: seq<Call>)

  /** The first value that is set. */
  function Fill<T>(first: Option<T>, later: Option<T>): Option<T> {
    if first.None? then later else first
  }

  /** Text so far and the text that follows it. */
  function Append(text: Option<string>, later: Option<string>): Option<string> {
    if text.None? then later else if later.None? then text else Some(text.value + later.value)
  }

  // ----- A client

  /** What a client has collected for one tool call. */
  datatype ToolView = ToolView(id: Option<string>, kind: Option<string>, name: Option<string>,
                               arguments: Option<string>)

  /** A client fills unset fields, appends texts, and keeps one entry for each tool-call index. */
  datatype Client = Client(role: Option<string>, content: Option<string>, reasoning: Option<string>,
                           tools: map<int, ToolView>)

  function NameOf(call: Call): Option<string> { if call.func.None? then None else call.func.value.name }

  function ArgumentsOf(call: Call): Option<string> { if call.func.None? then None else call.func.value.arguments }

  function Updated(view: ToolView, call: Call): ToolView {
    ToolView(Fill(view.id, call.id), Fill(view.kind, call.kind), Fill(view.name, NameOf(call)),
             Append(view.arguments, ArgumentsOf(call)))
  }

  function ViewAt(tools: map<int, ToolView>, index: int): ToolView {
    if index in tools then tools[index] else ToolView(None, None, None, None)
  }

  function ReceiveCall(tools: map<int, ToolView>, call: Call): map<int, ToolView> {
    tools[call.index := Updated(ViewAt(tools, call.index), call)]
  }

  function ReceiveCalls(tools: map<int, ToolView>, calls: seq<Call>): map<int, ToolView> {
    if calls == [] then tools else ReceiveCall(ReceiveCalls(tools, calls[..|calls| - 1]), calls[|calls| - 1])
  }

  function Receive(client: Client, message: Message): Client {
    Client(Fill(client.role, message.role), Append(client.content, message.content),
           Append(client.reasoning, message.reasoning), ReceiveCalls(client.tools, message.calls))
  }

  /** Messages in order; a delta without a message leaves the client as it is. */
  function ReceiveAll(client: Client, messages: seq<Option<Message>>): Client {
    if messages == [] then client
    else
      var before := ReceiveAll(client, messages[..|messages| - 1]);
      var last := messages[|messages| - 1];
      if last.None? then before else Receive(before, last.value)
  }

  // ----- coalesce

  /** An entry and a later one of the same index. */
  function Filled(existing: Call, call: Call): Call {
    Call(existing.index, Fill(existing.id, call.id), Fill(existing.kind, call.kind),
         if call.func.None? then existing.func
         else if existing.func.None? then call.func
         else Some(Function(Fill(existing.func.value.name, call.func.value.name),
                            Append(existing.func.value.arguments, call.func.value.arguments))))
  }

  /** Position of the entry of an index, or the number of entries. */
  function Find(entries: seq<Call>, index: int): (k: nat)
    ensures k <= |entries|
    ensures k < |entries| ==> entries[k].index == index
    ensures forall j :: 0 <= j < k ==> entries[j].index != index
  {
    if entries == [] then 0 else if entries[0].index == index then 0 else 1 + Find(entries[1..], index)
  }

  function Absorbed(entries: seq<Call>, call: Call): seq<Call> {
    var k := Find(entries, call.index);
    if k < |entries| then entries[k := Filled(entries[k], call)] else entries + [call]
  }

  /** One entry per index, in first-seen order. */
  function Coalesced(calls: seq<Call>): seq<Call> {
    if calls == [] then [] else Absorbed(Coalesced(calls[..|calls| - 1]), calls[|calls| - 1])
  }

  predicate DistinctIndices(entries: seq<Call>) {
    forall i, j :: 0 <= i < |entries| && 0 <= j < |entries| && i != j ==> entries[i].index != entries[j].index
  }

  lemma {:induction false} CoalescedIndices(calls: seq<Call>)
    ensures DistinctIndices(Coalesced(calls)) && |Coalesced(calls)| <= |calls|
  {
    if calls != [] {
      CoalescedIndices(calls[..|calls| - 1]);
    }
  }

  /** Calls of distinct indices stay as they are. */
  lemma {:induction false} DistinctCallsStay(calls: seq<Call>)
    ensures DistinctIndices(calls) <==> |Coalesced(calls)| == |calls|
    ensures DistinctIndices(calls) ==> Coalesced(calls) == calls
  {
    if calls != [] {
      var n := |calls| - 1;
      DistinctCallsStay(calls[..n]);
      CoalescedIndices(calls[..n]);
      IndicesKept(calls[..n], calls[n].index);
      assert calls == calls[..n] + [calls[n]];
      DistinctLast(calls, n);
    }
  }

  lemma DistinctLast(calls: seq<Call>, n: nat)
    requires |calls| == n + 1
    ensures DistinctIndices(calls) <==>
            DistinctIndices(calls[..n]) && !(exists p :: 0 <= p < n && calls[..n][p].index == calls[n].index)
  {
    if DistinctIndices(calls) {
      assert forall i, j :: 0 <= i < n && 0 <= j < n && i != j ==> calls[..n][i].index != calls[..n][j].index;
    } else {
      var i, j :| 0 <= i < |calls| && 0 <= j < |calls| && i != j && calls[i].index == calls[j].index;
      assert i < n ==> calls[..n][i] == calls[i];
      assert j < n ==> calls[..n][j] == calls[j];
    }
  }

  /** The indices of the entries are those of the calls. */
  lemma {:induction false} IndicesKept(calls: seq<Call>, index: int)
    ensures (exists k :: 0 <= k < |Coalesced(calls)| && Coalesced(calls)[k].index == index) <==>
            (exists p :: 0 <= p < |calls| && calls[p].index == index)
  {
    if calls != [] {
      var n := |calls| - 1;
      IndicesKept(calls[..n], index);
      var before, after := Coalesced(calls[..n]), Coalesced(calls);
      var k := Find(before, calls[n].index);
      if p :| 0 <= p < |calls| && calls[p].index == index {
        if p < n {
          assert calls[..n][p].index == index;
          var j :| 0 <= j < |before| && before[j].index == index;
          assert after[j].index == index;
        } else {
          assert after[k].index == index;
        }
      }
      if j :| 0 <= j < |after| && after[j].index == index {
        if j < |before| && before[j].index == index {
          var p :| 0 <= p < |calls[..n]| && calls[..n][p].index == index;
          assert calls[p].index == index;
        } else {
          assert calls[n].index == index;
        }
      }
    }
  }

  // ----- The client cannot tell

  lemma UpdateTwice(view: ToolView, existing: Call, call: Call)
    ensures Updated(Updated(view, existing), call) == Updated(view, Filled(existing, call))
  {
    AppendAssociates(view.arguments, ArgumentsOf(existing), ArgumentsOf(call));
  }

  lemma AppendAssociates(a: Option<string>, b: Option<string>, c: Option<string>)
    ensures Append(Append(a, b), c) == Append(a, Append(b, c))
  {
    if a.Some? && b.Some? && c.Some? {
      assert (a.value + b.value) + c.value == a.value + (b.value + c.value);
    }
  }

  lemma CallsCommute(tools: map<int, ToolView>, a: Call, b: Call)
    requires a.index != b.index
    ensures ReceiveCall(ReceiveCall(tools, a), b) == ReceiveCall(ReceiveCall(tools, b), a)
  {
  }

  /** A call may as well be received with the entry of its index, if no entry after that one has its index. */
  lemma {:induction false} ReceiveEarlier(tools: map<int, ToolView>, entries: seq<Call>, k: nat, call: Call)
    requires k < |entries| && entries[k].index == call.index
    requires forall j :: k < j < |entries| ==> entries[j].index != call.index
    ensures ReceiveCalls(tools, entries[k := Filled(entries[k], call)]) ==
              ReceiveCall(ReceiveCalls(tools, entries), call)
  {
    var n := |entries| - 1;
    var changed := entries[k := Filled(entries[k], call)];
    if k == n {
      assert changed[..n] == entries[..n];
      var before := ReceiveCalls(tools, entries[..n]);
      UpdateTwice(ViewAt(before, call.index), entries[n], call);
    } else {
      ReceiveEarlier(tools, entries[..n], k, call);
      assert changed[..n] == entries[..n][k := Filled(entries[k], call)];
      CallsCommute(ReceiveCalls(tools, entries[..n]), call, entries[n]);
    }
  }

  /** The coalesced entries mean the same as the calls in order. */
  lemma {:induction false} CoalescedMeansTheSame(tools: map<int, ToolView>, calls: seq<Call>)
    ensures ReceiveCalls(tools, Coalesced(calls)) == ReceiveCalls(tools, calls)
  {
    if calls != [] {
      var front, call := calls[..|calls| - 1], calls[|calls| - 1];
      CoalescedMeansTheSame(tools, front);
      CoalescedIndices(front);
      var entries := Coalesced(front);
      var k := Find(entries, call.index);
      if k < |entries| {
        ReceiveEarlier(tools, entries, k, call);
      } else {
        assert (entries + [call])[..|entries|] == entries;
      }
    }
  }

  // ----- merge

  function Present(messages: seq<Option<Message>>): seq<Message> {
    if messages == [] then []
    else
      var last := messages[|messages| - 1];
      Present(messages[..|messages| - 1]) + if last.None? then [] else [last.value]
  }

  /** Role, texts and calls of the messages so far. */
  function Combined(messages: seq<Message>): Message {
    if messages == [] then Message(None, None, None, [])
    else
      var before, last := Combined(messages[..|messages| - 1]), messages[|messages| - 1];
      Message(Fill(before.role, last.role), Append(before.content, last.content),
              Append(before.reasoning, last.reasoning), before.calls + last.calls)
  }

  /** `merge`: nothing, the only message as it is, or one message of all. */
  function Merged(messages: seq<Option<Message>>, coalesceCalls: bool): Option<Message> {
    MergedAll(Present(messages), coalesceCalls)
  }

  function MergedAll(present: seq<Message>, coalesceCalls: bool): Option<Message> {
    if present == [] then None
    else if |present| == 1 then Some(present[0])
    else
      var all := Combined(present);
      Some(if coalesceCalls then all.(calls := Coalesced(all.calls)) else all)
  }

  lemma {:induction false} ReceiveCallsConcat(tools: map<int, ToolView>, a: seq<Call>, b: seq<Call>)
    ensures ReceiveCalls(tools, a + b) == ReceiveCalls(ReceiveCalls(tools, a), b)
  {
    if b == [] {
      assert a + b == a;
    } else {
      ReceiveCallsConcat(tools, a, b[..|b| - 1]);
      assert (a + b)[..|a + b| - 1] == a + b[..|b| - 1];
    }
  }

  lemma {:induction false} CombinedMeansAll(client: Client, messages: seq<Option<Message>>)
    ensures Receive(client, Combined(Present(messages))) == ReceiveAll(client, messages)
  {
    if messages != [] {
      var front, last := messages[..|messages| - 1], messages[|messages| - 1];
      CombinedMeansAll(client, front);
      if last.Some? {
        var before := Combined(Present(front));
        assert Present(messages)[..|Present(front)|] == Present(front);
        AppendAssociates(client.content, before.content, last.value.content);
        AppendAssociates(client.reasoning, before.reasoning, last.value.reasoning);
        ReceiveCallsConcat(client.tools, before.calls, last.value.calls);
      } else {
        assert Present(messages) == Present(front);
      }
    }
  }

  /** A client reaches the same state from the merged message as from the messages in order. */
  lemma MergedMeansTheSame(client: Client, messages: seq<Option<Message>>, coalesceCalls: bool)
    ensures ReceiveAll(client, [Merged(messages, coalesceCalls)]) == ReceiveAll(client, messages)
  {
    CombinedMeansAll(client, messages);
    var present, merged := Present(messages), Merged(messages, coalesceCalls);
    assert [merged][..0] == [];
    if |present| == 1 {
      assert present[..0] == [];
      assert Combined(present) == present[0];
    } else if |present| > 1 {
      CoalescedMeansTheSame(client.tools, Combined(present).calls);
    }
  }

  /** A message that is alone is served as it is, its calls not coalesced, and without one nothing is served. */
  lemma {:induction false} LoneMessageKept(messages: seq<Option<Message>>, k: nat, coalesceCalls: bool)
    requires k < |messages| && forall j :: 0 <= j < |messages| && j != k ==> messages[j].None?
    ensures Merged(messages, coalesceCalls) == messages[k]
    ensures Present(messages) == if messages[k].None? then [] else [messages[k].value]
  {
    var front := messages[..|messages| - 1];
    if k < |front| {
      LoneMessageKept(front, k, coalesceCalls);
    } else {
      NothingPresent(front);
    }
  }

  lemma {:induction false} NothingPresent(messages: seq<Option<Message>>)
    requires forall j :: 0 <= j < |messages| ==> messages[j].None?
    ensures Present(messages) == []
  {
    if messages != [] {
      NothingPresent(messages[..|messages| - 1]);
    }
  }

  // ----- What coalescing leaves in the calls

  /** No earlier call has the index of call `p`. */
  predicate IsFirst(calls: seq<Call>, p: nat)
    requires p < |calls|
  {
    forall q :: 0 <= q < p ==> calls[q].index != calls[p].index
  }

  /** The first `n` calls of an index, filled into one. */
  function EntryOf(calls: seq<Call>, n: nat, index: int): (entry: Call)
    requires n <= |calls|
    ensures entry.index == index
  {
    if n == 0 then Call(index, None, None, None)
    else
      var before := EntryOf(calls, n - 1, index);
      if calls[n - 1].index == index then Filled(before, calls[n - 1]) else before
  }

  /** The first of the first `n` calls of an index that has a function: the one whose function the entry holds. */
  function LenderOf(calls: seq<Call>, n: nat, index: int): (lender: Option<nat>)
    requires n <= |calls|
    ensures lender.Some? ==>
              lender.value < n && calls[lender.value].index == index && calls[lender.value].func.Some?
  {
    if n == 0 then None
    else
      var before := LenderOf(calls, n - 1, index);
      if before.Some? then before
      else if calls[n - 1].index == index && calls[n - 1].func.Some? then Some(n - 1) else None
  }

  /**
   * What call object `p` holds once the first `n` are coalesced: the first of an index is its entry, the one that lends
   * the entry its function sees that function grow, and every other call is as it was.
   */
  function CallAfter(calls: seq<Call>, n: nat, p: nat): Call
    requires n <= |calls| && p < |calls|
  {
    if p >= n then calls[p]
    else
      var entry := EntryOf(calls, n, calls[p].index);
      if IsFirst(calls, p) then entry
      else if LenderOf(calls, n, calls[p].index) == Some(p) then calls[p].(func := entry.func)
      else calls[p]
  }

  /** The calls listed again after coalescing. */
  function Relisted(calls: seq<Call>): (relisted: seq<Call>)
    ensures |relisted| == |calls| && forall p :: 0 <= p < |calls| ==> relisted[p] == CallAfter(calls, |calls|, p)
  {
    seq(|calls|, (p: nat) requires p < |calls| => CallAfter(calls, |calls|, p))
  }

  lemma {:induction false} NoEntryYet(calls: seq<Call>, n: nat, index: int)
    requires n <= |calls| && forall q :: 0 <= q < n ==> calls[q].index != index
    ensures EntryOf(calls, n, index) == Call(index, None, None, None) && LenderOf(calls, n, index) == None
  {
    if n > 0 {
      NoEntryYet(calls, n - 1, index);
    }
  }

  /** The entry has a function exactly when some call lends it one. */
  lemma {:induction false} LenderFills(calls: seq<Call>, n: nat, index: int)
    requires n <= |calls|
    ensures EntryOf(calls, n, index).func.None? <==> LenderOf(calls, n, index).None?
  {
    if n > 0 {
      LenderFills(calls, n - 1, index);
    }
  }

  /** Coalescing one more call changes the entry of its index and the call that lends the entry its function. */
  lemma CallAfterNext(calls: seq<Call>, n: nat, p: nat)
    requires n < |calls| && p < |calls|
    ensures var before, after, index := CallAfter(calls, n, p), CallAfter(calls, n + 1, p), calls[n].index;
      if p < n && calls[p].index == index && IsFirst(calls, p) then after == Filled(before, calls[n])
      else if p < n && LenderOf(calls, n, index) == Some(p)
      then after == before.(func := EntryOf(calls, n + 1, index).func)
      else after == before
  {
    LenderFills(calls, n, calls[n].index);
    if p == n && IsFirst(calls, n) {
      NoEntryYet(calls, n, calls[n].index);
    }
  }

  /** Every coalesced entry is made of all calls of its index. */
  lemma {:induction false} CoalescedEntry(calls: seq<Call>, n: nat, k: nat)
    requires n <= |calls| && k < |Coalesced(calls[..n])|
    ensures Coalesced(calls[..n])[k] == EntryOf(calls, n, Coalesced(calls[..n])[k].index)
  {
    if n > 0 {
      assert calls[..n][..n - 1] == calls[..n - 1];
      CoalescedIndices(calls[..n - 1]);
      var before, call := Coalesced(calls[..n - 1]), calls[n - 1];
      if k < |before| {
        CoalescedEntry(calls, n - 1, k);
      } else {
        FirstCall(calls, n - 1);
        NoEntryYet(calls, n - 1, call.index);
      }
    }
  }

  /** A call without an entry is the first of its index. */
  lemma FirstCall(calls: seq<Call>, n: nat)
    requires n < |calls|
    ensures Find(Coalesced(calls[..n]), calls[n].index) == |Coalesced(calls[..n])| <==> IsFirst(calls, n)
  {
    IndicesKept(calls[..n], calls[n].index);
    if !IsFirst(calls, n) {
      var q :| 0 <= q < n && calls[q].index == calls[n].index;
      assert calls[..n][q].index == calls[n].index;
    }
  }

  // ----- Listing the calls again

  predicate Argless(call: Call) {
    ArgumentsOf(call) == None || ArgumentsOf(call) == Some("")
  }

  /** Only the first call of each index has arguments. */
  predicate LaterArgless(calls: seq<Call>) {
    forall p :: 0 <= p < |calls| && !IsFirst(calls, p) ==> Argless(calls[p])
  }

  /** Of the calls of an index only the first has arguments. */
  predicate ArglessAt(calls: seq<Call>, index: int) {
    forall p :: 0 <= p < |calls| && calls[p].index == index && !IsFirst(calls, p) ==> Argless(calls[p])
  }

  /** What a client holds for an index is its earlier view and the entry of all calls of that index. */
  lemma {:induction false} ViewOfEntry(tools: map<int, ToolView>, calls: seq<Call>, n: nat, index: int)
    requires n <= |calls|
    ensures ViewAt(ReceiveCalls(tools, calls[..n]), index) == Updated(ViewAt(tools, index), EntryOf(calls, n, index))
    ensures index in ReceiveCalls(tools, calls[..n]) <==>
              index in tools || exists q :: 0 <= q < n && calls[q].index == index
  {
    if n > 0 {
      assert calls[..n][..n - 1] == calls[..n - 1];
      ViewOfEntry(tools, calls, n - 1, index);
      UpdateTwice(ViewAt(tools, index), EntryOf(calls, n - 1, index), calls[n - 1]);
    }
  }

  function Length(text: Option<string>): nat {
    if text.None? then 0 else |text.value|
  }

  /** The arguments of an entry are as long as those of its calls together. */
  function TotalLength(calls: seq<Call>, n: nat, index: int): nat
    requires n <= |calls|
  {
    if n == 0 then 0
    else TotalLength(calls, n - 1, index) + if calls[n - 1].index == index then Length(ArgumentsOf(calls[n - 1])) else 0
  }

  lemma {:induction false} EntryLength(calls: seq<Call>, n: nat, index: int)
    requires n <= |calls|
    ensures Length(ArgumentsOf(EntryOf(calls, n, index))) == TotalLength(calls, n, index)
  {
    if n > 0 {
      EntryLength(calls, n - 1, index);
    }
  }

  /** One call's arguments are a part of the total. */
  lemma {:induction false} PartOfTotal(calls: seq<Call>, n: nat, p: nat)
    requires p < n <= |calls|
    ensures TotalLength(calls, n, calls[p].index) >= TotalLength(calls, p, calls[p].index) +
              Length(ArgumentsOf(calls[p]))
  {
    if p < n - 1 {
      PartOfTotal(calls, n - 1, p);
    }
  }

  /** An entry leaves a field unset only if every call of its index does. */
  lemma {:induction false} EntryCollects(calls: seq<Call>, n: nat, p: nat)
    requires p < n <= |calls|
    ensures var entry, call := EntryOf(calls, n, calls[p].index), calls[p];
      && (entry.id.None? ==> call.id.None?) && (entry.kind.None? ==> call.kind.None?)
      && (entry.func.None? ==> call.func.None?) && (NameOf(entry).None? ==> NameOf(call).None?)
      && (ArgumentsOf(entry).None? ==> ArgumentsOf(call).None?)
  {
    if p < n - 1 {
      EntryCollects(calls, n - 1, p);
    }
  }

  lemma {:induction false} EntryArgless(calls: seq<Call>, n: nat, index: int)
    requires n <= |calls| && forall q :: 0 <= q < n && calls[q].index == index ==> Argless(calls[q])
    ensures Argless(EntryOf(calls, n, index))
  {
    if n > 0 {
      EntryArgless(calls, n - 1, index);
      assert "" + "" == "";
    }
  }

  /** Before a lender there is no function, so with later calls argless a later lender's entry is argless. */
  lemma LentArgless(calls: seq<Call>, p: nat)
    requires p < |calls| && !IsFirst(calls, p) && ArglessAt(calls, calls[p].index)
    requires LenderOf(calls, |calls|, calls[p].index) == Some(p)
    ensures Argless(EntryOf(calls, |calls|, calls[p].index))
  {
    forall q | 0 <= q < |calls| && calls[q].index == calls[p].index ensures Argless(calls[q]) {
      if IsFirst(calls, q) {
        LenderIsFirst(calls, |calls|, calls[p].index, q);
      }
    }
    EntryArgless(calls, |calls|, calls[p].index);
  }

  lemma {:induction false} LenderIsFirst(calls: seq<Call>, n: nat, index: int, q: nat)
    requires n <= |calls| && LenderOf(calls, n, index).Some? && q < LenderOf(calls, n, index).value
    requires calls[q].index == index
    ensures calls[q].func.None?
  {
    if LenderOf(calls, n - 1, index).Some? {
      LenderIsFirst(calls, n - 1, index, q);
    } else {
      NoLender(calls, n - 1, index, q);
    }
  }

  lemma {:induction false} NoLender(calls: seq<Call>, n: nat, index: int, q: nat)
    requires q < n <= |calls| && LenderOf(calls, n, index).None? && calls[q].index == index
    ensures calls[q].func.None?
  {
    if q < n - 1 {
      NoLender(calls, n - 1, index, q);
    }
  }

  /** The call changes the entry it is filled into. */
  predicate Adds(entry: Call, call: Call) {
    Filled(entry, call) != entry
  }

  /** With later calls argless the relisted ones add nothing to their entries. */
  lemma RelistedAddsNothing(calls: seq<Call>, p: nat)
    requires p < |calls| && !IsFirst(calls, p) && ArglessAt(calls, calls[p].index)
    ensures !Adds(EntryOf(calls, |calls|, calls[p].index), Relisted(calls)[p])
  {
    var entry, relisted := EntryOf(calls, |calls|, calls[p].index), Relisted(calls)[p];
    EntryCollects(calls, |calls|, p);
    if LenderOf(calls, |calls|, calls[p].index) == Some(p) {
      LentArgless(calls, p);
      assert relisted == calls[p].(func := entry.func);
    } else {
      assert Argless(calls[p]) && relisted == calls[p];
    }
    NothingAdded(entry, relisted);
  }

  lemma NothingAdded(entry: Call, call: Call)
    requires (entry.id.None? ==> call.id.None?) && (entry.kind.None? ==> call.kind.None?)
    requires (entry.func.None? ==> call.func.None?) && (NameOf(entry).None? ==> NameOf(call).None?)
    requires (ArgumentsOf(entry).None? ==> ArgumentsOf(call).None?) && Argless(call)
    ensures !Adds(entry, call)
  {
    AppendsNothing(ArgumentsOf(entry), ArgumentsOf(call));
  }

  lemma AppendsNothing(text: Option<string>, later: Option<string>)
    requires later.None? || later == Some("")
    requires text.None? ==> later.None?
    ensures Append(text, later) == text
  {
    if text.Some? && later.Some? {
      assert text.value + "" == text.value;
    }
  }

  /** With later calls argless the relisted calls of an index make the same entry. */
  lemma {:induction false} RelistedEntry(calls: seq<Call>, n: nat, index: int)
    requires n <= |calls| && ArglessAt(calls, index)
    ensures EntryOf(Relisted(calls), n, index) ==
            if exists q :: 0 <= q < n && calls[q].index == index then EntryOf(calls, |calls|, index)
            else Call(index, None, None, None)
  {
    if n > 0 {
      RelistedEntry(calls, n - 1, index);
      var p := n - 1;
      assert Relisted(calls)[p] == CallAfter(calls, |calls|, p);
      if calls[p].index == index && !IsFirst(calls, p) {
        RelistedAddsNothing(calls, p);
      }
    }
  }

  /** Arguments of a later call make the relisted entry longer. */
  lemma RelistedIsLonger(calls: seq<Call>, p: nat)
    requires p < |calls| && !IsFirst(calls, p) && !Argless(calls[p])
    ensures TotalLength(Relisted(calls), |calls|, calls[p].index) > TotalLength(calls, |calls|, calls[p].index)
  {
    var first := FirstOf(calls, p);
    var relisted, index := Relisted(calls), calls[p].index;
    PartOfTotal(relisted, p, first);
    PartOfTotal(relisted, |calls|, p);
    PartOfTotal(calls, |calls|, p);
    EntryLength(calls, |calls|, index);
    assert relisted[first] == EntryOf(calls, |calls|, index);
  }

  lemma FirstOf(calls: seq<Call>, p: nat) returns (first: nat)
    requires p < |calls| && !IsFirst(calls, p)
    ensures first < p && IsFirst(calls, first) && calls[first].index == calls[p].index
  {
    first :| 0 <= first < p && calls[first].index == calls[p].index;
    if !IsFirst(calls, first) {
      first := FirstOf(calls, first);
    }
  }

  /**
   * A client reaches the same state from the relisted calls as from the calls as they were, exactly when no call but
   * the first of its index has arguments.
   */
  lemma RelistingRepeatsArguments(tools: map<int, ToolView>, calls: seq<Call>)
    ensures ReceiveCalls(tools, Relisted(calls)) == ReceiveCalls(tools, calls) <==> LaterArgless(calls)
  {
    if LaterArgless(calls) {
      RelistedKeepsViews(tools, calls);
    } else {
      var p :| 0 <= p < |calls| && !IsFirst(calls, p) && !Argless(calls[p]);
      RelistedIsLonger(calls, p);
      ViewLength(tools, calls, calls[p].index);
      ViewLength(tools, Relisted(calls), calls[p].index);
    }
  }

  /** A client's arguments grow by what the calls of the index say. */
  lemma ViewLength(tools: map<int, ToolView>, calls: seq<Call>, index: int)
    ensures Length(ViewAt(ReceiveCalls(tools, calls), index).arguments) ==
            Length(ViewAt(tools, index).arguments) + TotalLength(calls, |calls|, index)
  {
    assert calls[..|calls|] == calls;
    ViewOfEntry(tools, calls, |calls|, index);
    EntryLength(calls, |calls|, index);
  }

  lemma RelistedKeepsViews(tools: map<int, ToolView>, calls: seq<Call>)
    requires LaterArgless(calls)
    ensures ReceiveCalls(tools, Relisted(calls)) == ReceiveCalls(tools, calls)
  {
    var one, two := ReceiveCalls(tools, Relisted(calls)), ReceiveCalls(tools, calls);
    forall index: int ensures index in one.Keys <==> index in two.Keys {
      SameView(tools, calls, index);
    }
    assert one.Keys == two.Keys;
    forall index | index in one ensures one[index] == two[index] {
      SameView(tools, calls, index);
      assert one[index] == ViewAt(one, index) && two[index] == ViewAt(two, index);
    }
  }

  lemma SameView(tools: map<int, ToolView>, calls: seq<Call>, index: int)
    requires LaterArgless(calls)
    ensures var one, two := ReceiveCalls(tools, Relisted(calls)), ReceiveCalls(tools, calls);
      (index in one <==> index in two) && ViewAt(one, index) == ViewAt(two, index)
  {
    var n, relisted := |calls|, Relisted(calls);
    assert calls[..n] == calls && relisted[..n] == relisted;
    ViewOfEntry(tools, calls, n, index);
    ViewOfEntry(tools, relisted, n, index);
    RelistedEntry(calls, n, index);
    RelistedIndices(calls, index);
    if !exists q :: 0 <= q < n && calls[q].index == index {
      NoEntryYet(calls, n, index);
    }
  }

  lemma RelistedIndices(calls: seq<Call>, index: int)
    ensures (exists q :: 0 <= q < |calls| && Relisted(calls)[q].index == index) <==>
            (exists q :: 0 <= q < |calls| && calls[q].index == index)
  {
    forall q | 0 <= q < |calls| ensures Relisted(calls)[q].index == calls[q].index {
    }
  }

  /** Whether building the merged message raises, and whether building it from the calls listed again does too. */
  datatype Faults = Faults(merging: bool, relisting: bool)

  /** Building fails: there are messages to build one of, and it raises. */
  predicate Fails(present: seq<Message>, faults: Faults) {
    |present| > 1 && faults.merging
  }

  /** The last message, whose calls hold what coalescing left in them. */
  function LastRelisted(present: seq<Message>): Message
    requires present != []
  {
    var last, calls := present[|present| - 1], Combined(present).calls;
    last.(calls := Relisted(calls)[|calls| - |last.calls|..])
  }

  /** `Stream.merge`: the merged message, else one that lists the calls again, else the last message. */
  function MergedOrKept(present: seq<Message>, faults: Faults): Option<Message> {
    if !Fails(present, faults) then MergedAll(present, true)
    else if faults.relisting then Some(LastRelisted(present))
    else
      var all := Combined(present);
      Some(all.(calls := Relisted(all.calls)))
  }

  /**
   * Listing the calls again gives the client what the parser produced exactly when no call but the first of its index
   * has arguments.
   */
  lemma RelistedMessageMeansTheSame(client: Client, messages: seq<Option<Message>>, faults: Faults)
    requires Fails(Present(messages), faults) && !faults.relisting
    ensures ReceiveAll(client, [MergedOrKept(Present(messages), faults)]) == ReceiveAll(client, messages) <==>
            LaterArgless(Combined(Present(messages)).calls)
  {
    CombinedMeansAll(client, messages);
    RelistingRepeatsArguments(client.tools, Combined(Present(messages)).calls);
    assert [MergedOrKept(Present(messages), faults)][..0] == [];
  }

  /** How much of a call's arguments a client holds. */
  function LengthAt(client: Client, index: int): nat {
    Length(ViewAt(client.tools, index).arguments)
  }

  /** How much messages say of a call's arguments. */
  function SaidLength(messages: seq<Option<Message>>, index: int): nat {
    if messages == [] then 0
    else
      var last := messages[|messages| - 1];
      SaidLength(messages[..|messages| - 1], index) +
      if last.None? then 0 else TotalLength(last.value.calls, |last.value.calls|, index)
  }

  lemma {:induction false} ReceivedLength(client: Client, messages: seq<Option<Message>>, index: int)
    ensures LengthAt(ReceiveAll(client, messages), index) == LengthAt(client, index) + SaidLength(messages, index)
  {
    if messages != [] {
      var front, last := messages[..|messages| - 1], messages[|messages| - 1];
      ReceivedLength(client, front, index);
      if last.Some? {
        ViewLength(ReceiveAll(client, front).tools, last.value.calls, index);
      }
    }
  }

  /** Messages that leave a client in one state say equally much. */
  lemma SaidAlike(client: Client, a: seq<Option<Message>>, b: seq<Option<Message>>, index: int)
    requires ReceiveAll(client, a) == ReceiveAll(client, b)
    ensures SaidLength(a, index) == SaidLength(b, index)
  {
    ReceivedLength(client, a, index);
    ReceivedLength(client, b, index);
  }

  const NEW_CLIENT := Client(None, None, None, map[])

  /** A message that lists calls again says at least as much as the messages it stands for. */
  lemma KeptSaysAtLeast(messages: seq<Option<Message>>, faults: Faults, index: int)
    requires Fails(Present(messages), faults) ==> !faults.relisting
    ensures SaidLength([MergedOrKept(Present(messages), faults)], index) >= SaidLength(messages, index)
  {
    var kept, all := MergedOrKept(Present(messages), faults), Combined(Present(messages));
    if Fails(Present(messages), faults) {
      CombinedMeansAll(NEW_CLIENT, messages);
      assert [Some(all)][..0] == [] && [kept][..0] == [];
      SaidAlike(NEW_CLIENT, [Some(all)], messages, index);
      RelistedAtLeast(all.calls, index);
    } else {
      MergedMeansTheSame(NEW_CLIENT, messages, true);
      SaidAlike(NEW_CLIENT, [kept], messages, index);
    }
  }

  lemma RelistedAtLeast(calls: seq<Call>, index: int)
    ensures TotalLength(Relisted(calls), |calls|, index) >= TotalLength(calls, |calls|, index)
  {
    if q :| 0 <= q < |calls| && calls[q].index == index {
      var first := q;
      if !IsFirst(calls, q) {
        first := FirstOf(calls, q);
      }
      EntryLength(calls, |calls|, index);
      assert Relisted(calls)[first] == EntryOf(calls, |calls|, index);
      PartOfTotal(Relisted(calls), |calls|, first);
    } else {
      NoEntryYet(calls, |calls|, index);
      EntryLength(calls, |calls|, index);
    }
  }

  /** It says more of some call if a call but the first of its index has arguments. */
  lemma KeptSaysMore(messages: seq<Option<Message>>, faults: Faults) returns (index: int)
    requires Fails(Present(messages), faults) && !faults.relisting
    requires !LaterArgless(Combined(Present(messages)).calls)
    ensures SaidLength([MergedOrKept(Present(messages), faults)], index) > SaidLength(messages, index)
  {
    var kept, all := MergedOrKept(Present(messages), faults), Combined(Present(messages));
    var p :| 0 <= p < |all.calls| && !IsFirst(all.calls, p) && !Argless(all.calls[p]);
    index := all.calls[p].index;
    CombinedMeansAll(NEW_CLIENT, messages);
    assert [Some(all)][..0] == [] && [kept][..0] == [];
    SaidAlike(NEW_CLIENT, [Some(all)], messages, index);
    RelistedIsLonger(all.calls, p);
  }

  /** Two calls that split their arguments, and one whose only function comes with the second call. */
  lemma RelistingExamples()
    ensures var calls := [Call(0, Some("a"), None, Some(Function(Some("f"), Some("{")))),
                          Call(0, None, None, Some(Function(None, Some("}"))))];
      && ViewAt(ReceiveCalls(map[], calls), 0).arguments == Some("{}")
      && ViewAt(ReceiveCalls(map[], Relisted(calls)), 0).arguments == Some("{}}")
    ensures var calls := [Call(0, Some("a"), None, None), Call(0, None, None, Some(Function(Some("f"), Some("{}"))))];
      && ViewAt(ReceiveCalls(map[], calls), 0).arguments == Some("{}")
      && ViewAt(ReceiveCalls(map[], Relisted(calls)), 0).arguments == Some("{}{}")
  {
    var joined := Function(Some("f"), Some("{}"));
    assert "{" + "}" == "{}" && "{}" + "}" == "{}}" && "{}" + "{}" == "{}{}";
    PairRelisted(Call(0, Some("a"), None, Some(Function(Some("f"), Some("{")))),
                 Call(0, None, None, Some(Function(None, Some("}")))));
    PairRelisted(Call(0, Some("a"), None, None), Call(0, None, None, Some(joined)));
  }

  /** Two calls of one index, listed again. */
  lemma PairRelisted(first: Call, second: Call)
    requires first.index == second.index
    ensures var filled := Filled(first, second);
      Relisted([first, second]) == [filled, if first.func.None? then second.(func := filled.func) else second]
    ensures ArgumentsOfPair(first, second)
    ensures ArgumentsOfPair(Relisted([first, second])[0], Relisted([first, second])[1])
  {
    var calls := [first, second];
    var n := |calls|;
    assert EntryOf(calls, n, first.index) == Filled(EntryOf(calls, n - 1, first.index), second);
    assert EntryOf(calls, n - 1, first.index) == Filled(EntryOf(calls, n - 2, first.index), first) == first;
    assert LenderOf(calls, n - 1, first.index) == if first.func.Some? then Some(0) else None;
    assert !IsFirst(calls, 1);
    PairReceived(first, second);
    PairReceived(Relisted(calls)[0], Relisted(calls)[1]);
  }

  predicate ArgumentsOfPair(first: Call, second: Call) {
    ViewAt(ReceiveCalls(map[], [first, second]), first.index).arguments ==
        Append(ArgumentsOf(first), ArgumentsOf(second))
  }

  lemma PairReceived(first: Call, second: Call)
    requires first.index == second.index
    ensures ArgumentsOfPair(first, second)
  {
    assert [first, second][..1] == [first] && [first][..0] == [];
    assert ReceiveCalls(map[], [first]) == ReceiveCall(map[], first);
  }

  // ----- The objects

  /** A function delta; `coalesce` assigns its fields. */
  class ToolFunction {
    var name: Option<string>
    var arguments: Option<string>

    constructor (name: Option<string>, arguments: Option<string>)
      ensures this.name == name && this.arguments == arguments
    {
      this.name, this.arguments := name, arguments;
    }

    function Value(): Function
      reads this
    {
      Function(name, arguments)
    }
  }

  /** A tool-call delta; `coalesce` assigns its fields and those of its function. */
  class ToolCall {
    const index: int
    var id: Option<string>
    var kind: Option<string>
    var func: ToolFunction?

    constructor (index: int, id: Option<string>, kind: Option<string>, func: ToolFunction?)
      ensures this.index == index && this.id == id && this.kind == kind && this.func == func
    {
      this.index, this.id, this.kind, this.func := index, id, kind, func;
    }

    function Value(): Call
      reads this, func
    {
      Call(index, id, kind, if func == null then None else Some(func.Value()))
    }
  }

  /** The calls as values. */
  function Values(calls: seq<ToolCall>): (values: seq<Call>)
    reads calls, set p | 0 <= p < |calls| :: calls[p].func
    ensures |values| == |calls| && forall p :: 0 <= p < |calls| ==> values[p] == calls[p].Value()
  {
    seq(|calls|, (p: nat) requires p < |calls| reads calls, set p | 0 <= p < |calls| :: calls[p].func =>
      calls[p].Value())
  }

  /** No call object occurs twice and no two calls share a function object. */
  ghost predicate Separate(calls: seq<ToolCall>)
    reads calls
  {
    forall p, q :: 0 <= p < |calls| && 0 <= q < |calls| && p != q ==>
      calls[p] != calls[q] && (calls[p].func == null || calls[p].func != calls[q].func)
  }

  /** The in-place step of `coalesce`. */
  method FillInPlace(existing: ToolCall, call: ToolCall)
    requires existing != call && existing.index == call.index
    requires existing.func == null || existing.func != call.func
    modifies existing, existing.func
    ensures existing.Value() == Filled(old(existing.Value()), old(call.Value()))
    ensures existing.func == old(existing.func) || existing.func == old(call.func)
    ensures old(existing.func) != null ==> existing.func == old(existing.func)
  {
    if call.id.Some? && existing.id.None? {
      existing.id := call.id;
    }
    if call.kind.Some? && existing.kind.None? {
      existing.kind := call.kind;
    }
    if call.func != null {
      if existing.func == null {
        existing.func := call.func;
      } else {
        if call.func.name.Some? && existing.func.name.None? {
          existing.func.name := call.func.name;
        }
        if call.func.arguments.Some? {
          if existing.func.arguments.None? {
            existing.func.arguments := call.func.arguments;
          } else {
            existing.func.arguments := Some(existing.func.arguments.value + call.func.arguments.value);
          }
        }
      }
    }
  }

  /** The dictionary lookup: the entry of an index, or the number of entries. */
  method Lookup(entries: seq<ToolCall>, index: int) returns (k: nat)
    ensures k <= |entries| && (k < |entries| ==> entries[k].index == index)
    ensures forall j :: 0 <= j < k ==> entries[j].index != index
  {
    k := 0;
    while k < |entries| && entries[k].index != index
      invariant k <= |entries| && forall j :: 0 <= j < k ==> entries[j].index != index
    {
      k := k + 1;
    }
  }

  lemma {:induction false} FindUnique(entries: seq<Call>, index: int, k: nat)
    requires k <= |entries| && (k < |entries| ==> entries[k].index == index)
    requires forall j :: 0 <= j < k ==> entries[j].index != index
    ensures Find(entries, index) == k
  {
    if k > 0 {
      FindUnique(entries[1..], index, k - 1);
    }
  }

  ghost function Functions(calls: seq<ToolCall>): set<ToolFunction?>
    reads calls
  {
    set p | 0 <= p < |calls| :: calls[p].func
  }

  /** No object twice; no function twice; the values are those of the objects. */
  ghost predicate Initial(calls: seq<ToolCall>, functions: seq<ToolFunction?>, values: seq<Call>) {
    && |functions| == |values| == |calls|
    && (forall p, q :: 0 <= p < |calls| && 0 <= q < |calls| && p != q ==> calls[p] != calls[q])
    && (forall p, q :: 0 <= p < |calls| && 0 <= q < |calls| && p != q && functions[p] != null ==>
        functions[p] != functions[q])
    && (forall p :: 0 <= p < |calls| ==>
          calls[p].index == values[p].index && (functions[p] == null <==> values[p].func.None?))
  }

  /** The function object of call `p` once the first `n` calls are coalesced: that of the lender, or its own. */
  ghost function FunctionAfter(functions: seq<ToolFunction?>, values: seq<Call>, n: nat, p: nat): ToolFunction?
    requires n <= |values| == |functions| && p < |values|
  {
    if p < n && IsFirst(values, p) then
      var lender := LenderOf(values, n, values[p].index);
      if lender.None? then null else functions[lender.value]
    else functions[p]
  }

  ghost predicate Stands(calls: seq<ToolCall>, functions: seq<ToolFunction?>, values: seq<Call>, n: nat, p: nat)
    requires n <= |values| == |functions| == |calls| && p < |calls|
    reads calls[p], functions
  {
    calls[p].func == FunctionAfter(functions, values, n, p) && calls[p].Value() == CallAfter(values, n, p)
  }

  /** Every call object stands as it must once the first `n` are coalesced. */
  ghost predicate AllStand(calls: seq<ToolCall>, functions: seq<ToolFunction?>, values: seq<Call>, n: nat)
    requires n <= |values| == |functions| == |calls|
    reads calls, functions
  {
    forall p :: 0 <= p < |calls| ==> Stands(calls, functions, values, n, p)
  }

  /** The entries are the first calls of their indices. */
  ghost predicate AreEntries(entries: seq<ToolCall>, calls: seq<ToolCall>, values: seq<Call>, n: nat, owners: seq<nat>)
    requires n <= |values| == |calls|
  {
    && |owners| == |entries| == |Coalesced(values[..n])|
    && forall e :: 0 <= e < |entries| ==>
         && owners[e] < n && entries[e] == calls[owners[e]] && IsFirst(values, owners[e])
         && values[owners[e]].index == Coalesced(values[..n])[e].index
  }
  /** An iteration of `coalesce` on a call whose entry exists: that entry is changed, and what shares its function. */
  method AbsorbInPlace(existing: ToolCall, calls: seq<ToolCall>, i: nat, ghost functions: seq<ToolFunction?>,
                       ghost values: seq<Call>, ghost o: nat)
    requires Initial(calls, functions, values) && o < i < |calls| && AllStand(calls, functions, values, i)
    requires existing == calls[o] && IsFirst(values, o) && values[o].index == values[i].index
    modifies existing, existing.func
    ensures AllStand(calls, functions, values, i + 1)
  {
    assert Stands(calls, functions, values, i, o) && Stands(calls, functions, values, i, i);
    LenderFills(values, i, values[i].index);
    FillInPlace(existing, calls[i]);
    ghost var n := i + 1;
    forall p | 0 <= p < |calls| ensures Stands(calls, functions, values, n, p) {
      assert old(Stands(calls, functions, values, i, p));
      CallAfterNext(values, i, o);
      CallAfterNext(values, i, p);
      FunctionKept(functions, values, i, o, p);
    }
  }

  /** Only the function of the entry can change owner. */
  lemma FunctionKept(functions: seq<ToolFunction?>, values: seq<Call>, i: nat, o: nat, p: nat)
    requires |functions| == |values| && o < i < |values| && p < |values|
    requires IsFirst(values, o) && values[o].index == values[i].index
    ensures p != o ==> FunctionAfter(functions, values, i + 1, p) == FunctionAfter(functions, values, i, p)
    ensures p != o && p < i && IsFirst(values, p) ==> values[p].index != values[i].index
  {
  }

  /** A call that is the first of its index stands as its entry. */
  lemma NewEntry(calls: seq<ToolCall>, i: nat, functions: seq<ToolFunction?>, values: seq<Call>)
    requires Initial(calls, functions, values) && i < |calls| && AllStand(calls, functions, values, i)
    requires IsFirst(values, i)
    ensures AllStand(calls, functions, values, i + 1)
  {
    NoEntryYet(values, i, values[i].index);
    var n := i + 1;
    forall p | 0 <= p < |calls| ensures Stands(calls, functions, values, n, p) {
      assert Stands(calls, functions, values, i, p);
      CallAfterNext(values, i, p);
    }
  }

  /** The entries after one more call whose lookup ended at `k`. */
  lemma EntriesNext(entries: seq<ToolCall>, calls: seq<ToolCall>, values: seq<Call>, i: nat, owners: seq<nat>, k: nat)
    requires i < |values| == |calls| && AreEntries(entries, calls, values, i, owners) && k <= |entries|
    requires forall p :: 0 <= p < |calls| ==> calls[p].index == values[p].index
    requires k < |entries| ==> entries[k].index == values[i].index
    requires forall j :: 0 <= j < k ==> entries[j].index != values[i].index
    ensures k < |entries| ==> AreEntries(entries, calls, values, i + 1, owners)
    ensures k == |entries| ==>
              IsFirst(values, i) && AreEntries(entries + [calls[i]], calls, values, i + 1, owners + [i])
  {
    CoalescedNext(values, i);
    FindUnique(Coalesced(values[..i]), values[i].index, k);
    FirstCall(values, i);
  }

  /** One iteration: the call is absorbed by the entry of its index or becomes a new one. */
  method CoalesceStep(entries: seq<ToolCall>, calls: seq<ToolCall>, i: nat, ghost functions: seq<ToolFunction?>,
                      ghost values: seq<Call>, ghost owners: seq<nat>)
    returns (next: seq<ToolCall>, ghost owning: seq<nat>)
    requires Initial(calls, functions, values) && i < |calls| && AllStand(calls, functions, values, i)
    requires AreEntries(entries, calls, values, i, owners)
    modifies calls, functions
    ensures AllStand(calls, functions, values, i + 1) && AreEntries(next, calls, values, i + 1, owning)
  {
    var k := Lookup(entries, calls[i].index);
    next, owning := entries, owners;
    EntriesNext(entries, calls, values, i, owners, k);
    if k < |entries| {
      assert Stands(calls, functions, values, i, owners[k]);
      AbsorbInPlace(entries[k], calls, i, functions, values, owners[k]);
    } else {
      next, owning := entries + [calls[i]], owners + [i];
      NewEntry(calls, i, functions, values);
    }
  }

  /**
   * `coalesce`: one entry per index in first-seen order, by assigning the fields of the calls themselves, which hold
   * the relisted values afterwards.
   */
  method Coalesce(calls: seq<ToolCall>) returns (merged: seq<ToolCall>)
    requires Separate(calls)
    modifies calls, Functions(calls)
    ensures Values(merged) == Coalesced(old(Values(calls)))
    ensures Values(calls) == Relisted(old(Values(calls)))
  {
    ghost var values := Values(calls);
    ghost var functions := FunctionList(calls);
    var entries: seq<ToolCall> := [];
    ghost var owners: seq<nat> := [];
    for i := 0 to |calls|
      invariant AllStand(calls, functions, values, i) && AreEntries(entries, calls, values, i, owners)
    {
      entries, owners := CoalesceStep(entries, calls, i, functions, values, owners);
    }
    Settled(entries, calls, functions, values, owners);
    merged := entries;
  }

  /** What the loop of `coalesce` leaves. */
  lemma Settled(entries: seq<ToolCall>, calls: seq<ToolCall>, functions: seq<ToolFunction?>, values: seq<Call>,
                owners: seq<nat>)
    requires |functions| == |values| == |calls| && AllStand(calls, functions, values, |calls|)
    requires AreEntries(entries, calls, values, |calls|, owners)
    ensures Values(entries) == Coalesced(values) && Values(calls) == Relisted(values)
  {
    assert values[..|calls|] == values;
    forall e | 0 <= e < |entries| ensures entries[e].Value() == Coalesced(values)[e] {
      assert Stands(calls, functions, values, |calls|, owners[e]);
      CoalescedEntry(values, |calls|, e);
    }
    forall p | 0 <= p < |calls| ensures calls[p].Value() == Relisted(values)[p] {
      assert Stands(calls, functions, values, |calls|, p);
    }
  }

  lemma CoalescedNext(values: seq<Call>, i: nat)
    requires i < |values|
    ensures Coalesced(values[..i + 1]) == Absorbed(Coalesced(values[..i]), values[i])
  {
    assert values[..i + 1][..i] == values[..i];
  }

  ghost function FunctionList(calls: seq<ToolCall>): (functions: seq<ToolFunction?>)
    reads calls
    ensures |functions| == |calls| && forall p :: 0 <= p < |calls| ==> functions[p] == calls[p].func
  {
    seq(|calls|, (p: nat) requires p < |calls| reads calls => calls[p].func)
  }

  class DeltaMessage {
    const role: Option<string>
    const content: Option<string>
    const reasoning: Option<string>
    const toolCalls: seq<ToolCall>

    constructor (role: Option<string>, content: Option<string>, reasoning: Option<string>, toolCalls: seq<ToolCall>)
      ensures this.role == role && this.content == content && this.reasoning == reasoning && this.toolCalls == toolCalls
    {
      this.role, this.content, this.reasoning, this.toolCalls := role, content, reasoning, toolCalls;
    }

    function Value(): Message
      reads toolCalls, set p | 0 <= p < |toolCalls| :: toolCalls[p].func
    {
      Message(role, content, reasoning, Values(toolCalls))
    }
  }

  /** The calls of all messages, in order. */
  function CallsOf(messages: seq<DeltaMessage>): seq<ToolCall> {
    if messages == [] then [] else CallsOf(messages[..|messages| - 1]) + messages[|messages| - 1].toolCalls
  }

  /** The messages there are. */
  function Given(messages: seq<DeltaMessage?>): seq<DeltaMessage> {
    if messages == [] then []
    else Given(messages[..|messages| - 1]) + if messages[|messages| - 1] == null then [] else [messages[|messages| - 1]]
  }

  datatype Texts = Texts(role: Option<string>, content: Option<string>, reasoning: Option<string>)

  function TextsOf(messages: seq<DeltaMessage>): Texts {
    if messages == [] then Texts(None, None, None)
    else
      var before, last := TextsOf(messages[..|messages| - 1]), messages[|messages| - 1];
      Texts(Fill(before.role, last.role), Append(before.content, last.content),
            Append(before.reasoning, last.reasoning))
  }

  ghost function ValuesOf(messages: seq<DeltaMessage>): (values: seq<Message>)
    reads CallsOf(messages), Functions(CallsOf(messages))
    ensures |values| == |messages|
  {
    if messages == [] then []
    else
      var front, last := messages[..|messages| - 1], messages[|messages| - 1];
      CallsSplit(CallsOf(front), last.toolCalls);
      ValuesOf(front) + [last.Value()]
  }

  lemma CallsSplit(a: seq<ToolCall>, b: seq<ToolCall>)
    ensures forall c :: c in a || c in b ==> c in a + b
    ensures Functions(a) <= Functions(a + b) && Functions(b) <= Functions(a + b)
  {
    forall p | 0 <= p < |a| ensures a[p].func in Functions(a + b) {
      assert (a + b)[p] == a[p];
    }
    forall p | 0 <= p < |b| ensures b[p].func in Functions(a + b) {
      assert (a + b)[|a| + p] == b[p];
    }
  }

  lemma {:induction false} CombinedObjects(messages: seq<DeltaMessage>)
    ensures var all, texts := Combined(ValuesOf(messages)), TextsOf(messages);
      all == Message(texts.role, texts.content, texts.reasoning, Values(CallsOf(messages)))
  {
    if messages != [] {
      var front, last := messages[..|messages| - 1], messages[|messages| - 1];
      CombinedObjects(front);
      assert ValuesOf(messages)[..|messages| - 1] == ValuesOf(front);
      assert ValuesOf(messages)[|messages| - 1] == last.Value();
      ValuesConcat(CallsOf(front), last.toolCalls);
    }
  }

  lemma ValuesConcat(a: seq<ToolCall>, b: seq<ToolCall>)
    ensures Values(a + b) == Values(a) + Values(b)
  {
  }

  /** What merging assigns: the calls and their functions, if it coalesces. */
  ghost function Touched(calls: seq<ToolCall>, coalesceCalls: bool): set<object?>
    reads calls
  {
    if coalesceCalls then (set c: object? | c in calls) + (set f: object? | f in Functions(calls)) else {}
  }

  /** `merge`, on the messages' own objects; `fault` is the constructor of the merged message raising. */
  method Merge(messages: seq<DeltaMessage?>, coalesceCalls: bool, fault: bool) returns (r: Result<DeltaMessage?>)
    requires coalesceCalls ==> Separate(CallsOf(Given(messages)))
    modifies Touched(CallsOf(Given(messages)), coalesceCalls)
    ensures r.Raised? <==> |Given(messages)| > 1 && fault
    ensures r.Ok? ==> (r.value == null <==> Given(messages) == [])
    ensures r.Ok? && |Given(messages)| == 1 ==> r.value == Given(messages)[0]
    ensures r.Ok? && r.value != null ==>
              Some(r.value.Value()) == MergedAll(old(ValuesOf(Given(messages))), coalesceCalls)
    ensures Values(CallsOf(Given(messages))) ==
            if coalesceCalls && |Given(messages)| > 1 then Relisted(old(Values(CallsOf(Given(messages)))))
            else old(Values(CallsOf(Given(messages))))
  {
    var present: seq<DeltaMessage> := [];
    for i := 0 to |messages|
      invariant present == Given(messages[..i])
    {
      assert messages[..i + 1][..i] == messages[..i];
      if messages[i] != null {
        present := present + [messages[i]];
      }
    }
    assert messages[..|messages|] == messages;
    if present == [] {
      return Ok(null);
    }
    if |present| == 1 {
      assert present[..0] == [];
      return Ok(present[0]);
    }
    r := Assemble(present, coalesceCalls, fault);
  }

  /** The fields of several messages, joined. */
  method Assemble(present: seq<DeltaMessage>, coalesceCalls: bool, fault: bool) returns (r: Result<DeltaMessage?>)
    requires coalesceCalls ==> Separate(CallsOf(present))
    modifies Touched(CallsOf(present), coalesceCalls)
    ensures r.Raised? <==> fault
    ensures r.Ok? ==> r.value != null
    ensures r.Ok? ==> var all := Combined(old(ValuesOf(present)));
      r.value.Value() == if coalesceCalls then all.(calls := Coalesced(all.calls)) else all
    ensures Values(CallsOf(present)) ==
            if coalesceCalls then Relisted(old(Values(CallsOf(present)))) else old(Values(CallsOf(present)))
  {
    var texts := Texts(None, None, None);
    var calls: seq<ToolCall> := [];
    for i := 0 to |present|
      invariant texts == TextsOf(present[..i]) && calls == CallsOf(present[..i])
    {
      assert present[..i + 1][..i] == present[..i];
      texts := Texts(Fill(texts.role, present[i].role), Append(texts.content, present[i].content),
                     Append(texts.reasoning, present[i].reasoning));
      calls := calls + present[i].toolCalls;
    }
    assert present[..|present|] == present;
    CombinedObjects(present);
    r := Build(texts, calls, coalesceCalls, fault);
  }

  /** One message of joined fields. */
  method Build(texts: Texts, calls: seq<ToolCall>, coalesceCalls: bool, fault: bool) returns (r: Result<DeltaMessage?>)
    requires coalesceCalls ==> Separate(calls)
    modifies Touched(calls, coalesceCalls)
    ensures r.Raised? <==> fault
    ensures r.Ok? ==> r.value != null
    ensures r.Ok? ==> var values := old(Values(calls));
      r.value.Value() == Message(texts.role, texts.content, texts.reasoning,
                                 if coalesceCalls then Coalesced(values) else values)
    ensures Values(calls) == if coalesceCalls then Relisted(old(Values(calls))) else old(Values(calls))
  {
    var listed := calls;
    if coalesceCalls {
      listed := Coalesce(calls);
    }
    if fault {
      return Raised;
    }
    var message := new DeltaMessage(texts.role, texts.content, texts.reasoning, listed);
    r := Ok(message);
  }

  /** The last message there is. */
  method LastGiven(messages: seq<DeltaMessage?>) returns (r: DeltaMessage)
    requires Given(messages) != []
    ensures r == Given(messages)[|Given(messages)| - 1]
  {
    var k := |messages|;
    assert messages[..k] == messages;
    while messages[k - 1] == null
      invariant 0 < k <= |messages| && Given(messages[..k]) == Given(messages)
      decreases k
    {
      assert messages[..k][..k - 1] == messages[..k - 1];
      k := k - 1;
    }
    r := messages[k - 1];
  }

  /** Messages with the texts of `before`, whose last one has the calls of the last of `before`. */
  ghost predicate Shaped(given: seq<DeltaMessage>, before: seq<Message>)
    requires given != [] && before != []
  {
    var last, texts, all := given[|given| - 1], TextsOf(given), Combined(before);
    var value := before[|before| - 1];
    && (all.role, all.content, all.reasoning) == (texts.role, texts.content, texts.reasoning)
    && (value.role, value.content, value.reasoning) == (last.role, last.content, last.reasoning)
    && |value.calls| == |last.toolCalls| && |all.calls| == |CallsOf(given)|
  }

  lemma ObjectsShaped(given: seq<DeltaMessage>)
    requires given != []
    ensures ValuesOf(given) != [] && Shaped(given, ValuesOf(given))
    ensures Combined(ValuesOf(given)).calls == Values(CallsOf(given))
  {
    CombinedObjects(given);
    assert ValuesOf(given)[|given| - 1] == given[|given| - 1].Value();
  }

  /** What messages are once their calls hold relisted values: the texts they had, and those calls. */
  lemma RelistedObjects(given: seq<DeltaMessage>, before: seq<Message>)
    requires given != [] && before != [] && Shaped(given, before)
    requires Values(CallsOf(given)) == Relisted(Combined(before).calls)
    ensures Combined(ValuesOf(given)) == Combined(before).(calls := Relisted(Combined(before).calls))
    ensures given[|given| - 1].Value() == LastRelisted(before)
  {
    CombinedObjects(given);
    var last := given[|given| - 1];
    assert Values(last.toolCalls) == Values(CallsOf(given))[|CallsOf(given)| - |last.toolCalls|..];
  }

  /** `Stream.merge`: a message that cannot be built is built from the calls listed again, or is the last one given. */
  method MergeOrKeep(messages: seq<DeltaMessage?>, faults: Faults) returns (r: DeltaMessage?, off: bool)
    requires Separate(CallsOf(Given(messages)))
    modifies CallsOf(Given(messages)), Functions(CallsOf(Given(messages)))
    ensures off <==> Fails(old(ValuesOf(Given(messages))), faults)
    ensures r == null <==> Given(messages) == []
    ensures r != null ==> Some(r.Value()) == MergedOrKept(old(ValuesOf(Given(messages))), faults)
  {
    ghost var given := Given(messages);
    ghost var before := ValuesOf(given);
    if given != [] {
      ObjectsShaped(given);
    }
    var merged := Merge(messages, true, faults.merging);
    if merged.Ok? {
      return merged.value, false;
    }
    r := Keep(messages, before, faults);
    off := true;
  }

  /** After a failed merge: the calls listed again, or the last message. */
  method Keep(messages: seq<DeltaMessage?>, ghost before: seq<Message>, faults: Faults) returns (r: DeltaMessage)
    requires Fails(before, faults) && |Given(messages)| == |before| && Shaped(Given(messages), before)
    requires Values(CallsOf(Given(messages))) == Relisted(Combined(before).calls)
    ensures Some(r.Value()) == MergedOrKept(before, faults)
  {
    ghost var given := Given(messages);
    RelistedObjects(given, before);
    ghost var now := ValuesOf(given);
    assert MergedAll(now, false) == Some(Combined(now)) == MergedOrKept(before, faults.(relisting := false));
    var relisted := Merge(messages, false, faults.relisting);
    if relisted.Ok? {
      return relisted.value;
    }
    RelistedObjects(given, before);
    r := LastGiven(messages);
  }
}
