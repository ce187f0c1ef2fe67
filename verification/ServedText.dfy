/**
 * The text a client gets over a whole request (scripts/ci/c2_parser_rechunk.py, `merge` and its fallbacks), whatever
 * fails: when no message can be built for a delta, the text of all but its last sub-message is lost.
 */
module ServedText {
  import opened DeltaMerge
  import opened LastMessage
  import opened ParserRechunk
  import opened Results

  /** The two texts of a message. */
  datatype Field = Content | Reasoning

  function TextOf(text: Option<string>): string { if text.None? then "" else text.value }

  function MessageText(field: Field, message: Message): string {
    TextOf(if field.Content? then message.content else message.reasoning)
  }

  function ClientText(field: Field, client: Client): string {
    TextOf(if field.Content? then client.content else client.reasoning)
  }

  /** The texts of messages, joined. */
  function Said(field: Field, messages: seq<Option<Message>>): string {
    if messages == [] then ""
    else
      var last := messages[|messages| - 1];
      Said(field, messages[..|messages| - 1]) + if last.None? then "" else MessageText(field, last.value)
  }

  lemma ReceivedText(field: Field, client: Client, message: Message)
    ensures ClientText(field, Receive(client, message)) == ClientText(field, client) + MessageText(field, message)
  {
    var held, text := ClientText(field, client), MessageText(field, message);
    assert held + "" == held && "" + text == text;
  }

  /** A client holds what it held and what the messages say. */
  lemma {:induction false} AllReceivedText(field: Field, client: Client, messages: seq<Option<Message>>)
    ensures ClientText(field, ReceiveAll(client, messages)) == ClientText(field, client) + Said(field, messages)
  {
    var held := ClientText(field, client);
    if messages == [] {
      assert held + "" == held;
    } else {
      var front, last := messages[..|messages| - 1], messages[|messages| - 1];
      AllReceivedText(field, client, front);
      if last.Some? {
        ReceivedText(field, ReceiveAll(client, front), last.value);
        TextAssoc(held, Said(field, front), MessageText(field, last.value));
      } else {
        assert Said(field, front) + "" == Said(field, front);
      }
    }
  }

  lemma TextAssoc(a: string, b: string, c: string)
    ensures (a + b) + c == a + (b + c)
  {
  }

  lemma {:induction false} SaidTogether(field: Field, a: seq<Option<Message>>, b: seq<Option<Message>>)
    ensures Said(field, a + b) == Said(field, a) + Said(field, b)
  {
    if b == [] {
      assert a + b == a && Said(field, a) + "" == Said(field, a);
    } else {
      var front, last := b[..|b| - 1], b[|b| - 1];
      var text := if last.None? then "" else MessageText(field, last.value);
      SaidTogether(field, a, front);
      assert Said(field, a + b) == Said(field, a + front) + text by {
        SaidMore(field, a + front, last);
        assert a + b == (a + front) + [last];
      }
      TextAssoc(Said(field, a), Said(field, front), text);
    }
  }

  lemma SaidMore(field: Field, messages: seq<Option<Message>>, last: Option<Message>)
    ensures Said(field, messages + [last]) ==
            Said(field, messages) + if last.None? then "" else MessageText(field, last.value)
  {
    assert (messages + [last])[..|messages|] == messages;
  }

  lemma SaidOne(field: Field, message: Option<Message>)
    ensures Said(field, [message]) == if message.None? then "" else MessageText(field, message.value)
  {
    var text := if message.None? then "" else MessageText(field, message.value);
    assert [message][..0] == [] && "" + text == text;
  }

  /** What messages say is the text of all of them in one. */
  lemma SaidCombined(field: Field, messages: seq<Option<Message>>)
    ensures Said(field, messages) == MessageText(field, Combined(Present(messages)))
  {
    var text := MessageText(field, Combined(Present(messages)));
    CombinedMeansAll(NEW_CLIENT, messages);
    AllReceivedText(field, NEW_CLIENT, messages);
    ReceivedText(field, NEW_CLIENT, Combined(Present(messages)));
    assert "" + text == text && "" + Said(field, messages) == Said(field, messages);
  }

  // ----- What is lost

  /** The text lost in a delta for which nothing could be built: that of all but the last sub-message. */
  function Lost(field: Field, parts: seq<Option<Message>>, faults: Faults): string {
    if Fails(Present(parts), faults) && faults.relisting then MessageText(field, Earlier(Present(parts))) else ""
  }

  /** A delta's parts say what is lost and then what its message says. */
  lemma KeptText(field: Field, parts: seq<Option<Message>>, faults: Faults)
    ensures Said(field, parts) == Lost(field, parts, faults) + Said(field, [MergedOrKept(Present(parts), faults)])
  {
    var present, kept := Present(parts), MergedOrKept(Present(parts), faults);
    SaidCombined(field, parts);
    SaidOne(field, kept);
    assert "" + Said(field, parts) == Said(field, parts);
    if !Fails(present, faults) {
      MergedMeansTheSame(NEW_CLIENT, parts, true);
      AllReceivedText(field, NEW_CLIENT, parts);
      AllReceivedText(field, NEW_CLIENT, [kept]);
    } else if faults.relisting {
      JoinedText(field, present);
    }
  }

  lemma JoinedText(field: Field, present: seq<Message>)
    requires present != []
    ensures MessageText(field, Combined(present)) ==
            MessageText(field, Earlier(present)) + MessageText(field, LastRelisted(present))
  {
    ReceivedText(field, Client(Earlier(present).role, Earlier(present).content, Earlier(present).reasoning, map[]),
                 present[|present| - 1]);
  }

  /** How much is lost in all. */
  function LostLength(field: Field, parts: seq<seq<Option<Message>>>, failures: Failures): nat {
    if parts == [] then 0
    else
      var n := |parts| - 1;
      LostLength(field, parts[..n], failures) + |Lost(field, parts[n], failures(n))|
  }

  predicate LosesNothing(field: Field, parts: seq<seq<Option<Message>>>, failures: Failures) {
    forall n :: 0 <= n < |parts| ==> Lost(field, parts[n], failures(n)) == ""
  }

  lemma {:induction false} LostAddsUp(field: Field, parts: seq<seq<Option<Message>>>, failures: Failures)
    ensures |Said(field, Together(parts))| ==
            |Said(field, KeptAll(parts, failures))| + LostLength(field, parts, failures)
    ensures LostLength(field, parts, failures) == 0 <==> LosesNothing(field, parts, failures)
    ensures LosesNothing(field, parts, failures) ==>
              Said(field, Together(parts)) == Said(field, KeptAll(parts, failures))
  {
    if parts != [] {
      var n := |parts| - 1;
      var kept := [MergedOrKept(Present(parts[n]), failures(n))];
      LostAddsUp(field, parts[..n], failures);
      SaidTogether(field, KeptAll(parts[..n], failures), kept);
      SaidTogether(field, Together(parts[..n]), parts[n]);
      KeptText(field, parts[n], failures(n));
      LosesNothingMore(field, parts, failures);
      LostBefore(Said(field, Together(parts[..n])), Said(field, KeptAll(parts[..n], failures)),
                 Lost(field, parts[n], failures(n)), Said(field, kept));
    }
  }

  lemma LostBefore(together: string, keptAll: string, lost: string, kept: string)
    ensures |together + (lost + kept)| - |keptAll + kept| == |together| - |keptAll| + |lost|
    ensures lost == "" && together == keptAll ==> together + (lost + kept) == keptAll + kept
  {
    assert "" + kept == kept;
  }

  lemma LosesNothingMore(field: Field, parts: seq<seq<Option<Message>>>, failures: Failures)
    requires parts != []
    ensures var n := |parts| - 1;
      LosesNothing(field, parts, failures) <==>
      LosesNothing(field, parts[..n], failures) && Lost(field, parts[n], failures(n)) == ""
  {
    var n := |parts| - 1;
    if LosesNothing(field, parts[..n], failures) && Lost(field, parts[n], failures(n)) == "" {
      forall k | 0 <= k < |parts| ensures Lost(field, parts[k], failures(k)) == "" {
        assert k < n ==> parts[..n][k] == parts[k];
      }
    }
  }

  /**
   * Over every run, whatever fails, a client ends with the text of the finer deltas' messages exactly when no delta for
   * which nothing could be built had text in a message but its last; otherwise it has less, by the text of those.
   */
  lemma ServedTextLosesEarlier<D, P>(setup: Setup<D>, parser: Parser<P>, r: Request<D, P>, deltas: seq<Delta>,
                                     failures: Failures, client: Client, field: Field)
    ensures var parts := AllParts(setup, parser, r, deltas, failures);
      var served := ReceiveAll(client, Served(setup, parser, r, deltas, failures).1);
      var finer := ReceiveAll(client, FinerMessages(setup, parser, r, deltas, failures));
      && (ClientText(field, served) == ClientText(field, finer) <==> LosesNothing(field, parts, failures))
      && |ClientText(field, finer)| == |ClientText(field, served)| + LostLength(field, parts, failures)
  {
    var parts := AllParts(setup, parser, r, deltas, failures);
    ServedParts(setup, parser, r, deltas, failures);
    AllReceivedText(field, client, KeptAll(parts, failures));
    AllReceivedText(field, client, Together(parts));
    LostAddsUp(field, parts, failures);
  }
}
