/** Re-chunking multi-token deltas at marker tokens (scripts/ci/c2_parser_rechunk.py, `Stream` and `rechunked`). */
module ParserRechunk {
  import opened DeltaMerge
  import opened LastMessage
  import opened Results

  // ----- The private decode stream

  /** What one step of the tokenizer's decode stream does; a refusal leaves the stream in some state. */
  datatype Decoded<D> = Piece(next: D, text: Option<string>) | Refused(next: D) | InvalidPrefix | Broken

  datatype Terminal = ToolStart | ToolEnd | Other

  /**
   * What a stream is opened with: the decoder's step and its unprimed state, markers, and the added tokens' contents.
   */
  datatype Setup<!D> = Setup(step: (D, int) -> Decoded<D>, unprimed: D, markers: map<int, Terminal>, spaces: bool,
                             added: map<int, string>, isSpace: char -> bool)

  datatype State<D> = State(decoder: D, lastSpecial: bool, toolSeen: bool, inTool: bool, nonwsContent: bool)

  /** One token's text as the engine renders it, or a failure. */
  function DecodeStep<D>(setup: Setup<D>, decoder: D, id: int): Result<(D, string)> {
    match setup.step(decoder, id)
    case Piece(next, text) => Ok((next, if text.None? then "" else text.value))
    case Refused(next) => Ok((next, ""))
    case InvalidPrefix =>
      (match setup.step(setup.unprimed, id)
       case Piece(next, text) => Ok((next, if text.None? then "" else text.value))
       case _ => Raised)
    case Broken => Raised
  }

  /** A second added token in a row is rendered as its content when special tokens are not spaced. */
  function StepOf<D>(setup: Setup<D>, s: State<D>, id: int): Result<(State<D>, string)> {
    var piece := DecodeStep(setup, s.decoder, id);
    if piece.Raised? then Raised
    else if setup.spaces then Ok((s.(decoder := piece.value.0), piece.value.1))
    else
      var special := id in setup.added;
      Ok((s.(decoder := piece.value.0, lastSpecial := special),
          if special && s.lastSpecial then setup.added[id] else piece.value.1))
  }

  /** The pieces of the first `n` ids. */
  function PiecesOf<D>(setup: Setup<D>, s: State<D>, ids: seq<int>, n: nat): (r: Result<(State<D>, seq<string>)>)
    requires n <= |ids|
    ensures r.Ok? ==> |r.value.1| == n
    ensures r.Ok? ==> Flags(r.value.0) == Flags(s)
  {
    if n == 0 then Ok((s, []))
    else
      var before := PiecesOf(setup, s, ids, n - 1);
      if before.Raised? then Raised
      else
        var next := StepOf(setup, before.value.0, ids[n - 1]);
        if next.Raised? then Raised else Ok((next.value.0, before.value.1 + [next.value.1]))
  }

  function Flags<D>(s: State<D>): (bool, bool, bool) { (s.toolSeen, s.inTool, s.nonwsContent) }

  function Text(pieces: seq<string>): string {
    if pieces == [] then "" else Text(pieces[..|pieces| - 1]) + pieces[|pieces| - 1]
  }

  // ----- plan

  datatype Sub = Sub(text: string, ids: seq<int>)

  datatype Plan<D> = Whole(state: State<D>) | Split(state: State<D>, subs: seq<Sub>) | Off

  predicate Marked<D>(setup: Setup<D>, ids: seq<int>) {
    exists i :: 0 <= i < |ids| && ids[i] in setup.markers
  }

  /** The tool flags after the first `n` ids. */
  function Tracked(markers: map<int, Terminal>, toolSeen: bool, inTool: bool, ids: seq<int>, n: nat): (bool, bool)
    requires n <= |ids|
  {
    if n == 0 then (toolSeen, inTool)
    else
      var (seen, inside) := Tracked(markers, toolSeen, inTool, ids, n - 1);
      if ids[n - 1] !in markers then (seen, inside)
      else match markers[ids[n - 1]]
           case ToolStart => (true, true)
           case ToolEnd => (seen, false)
           case Other => (seen, inside)
  }

  /** The pieces to use: a finished delta may leave out the text of its last, stop, token. */
  function Rendered(pieces: seq<string>, text: string, finished: bool): (r: Result<seq<string>>)
    ensures r.Ok? ==> |r.value| == |pieces|
  {
    if Text(pieces) == text then Ok(pieces)
    else if finished && pieces != [] && Text(pieces[..|pieces| - 1]) == text then Ok(pieces[|pieces| - 1 := ""])
    else Raised
  }

  method Render(pieces: seq<string>, text: string, finished: bool) returns (r: Result<seq<string>>)
    ensures r == Rendered(pieces, text, finished)
    ensures r.Ok? ==> |r.value| == |pieces|
  {
    if Text(pieces) == text {
      return Ok(pieces);
    }
    if finished && pieces != [] && Text(pieces[..|pieces| - 1]) == text {
      return Ok(pieces[|pieces| - 1 := ""]);
    }
    r := Raised;
  }

  function SubsOf(pieces: seq<string>, ids: seq<int>): (subs: seq<Sub>)
    requires |pieces| == |ids|
    ensures |subs| == |ids| && forall i :: 0 <= i < |ids| ==> subs[i] == Sub(pieces[i], [ids[i]])
  {
    seq(|ids|, (i: nat) requires i < |ids| && |pieces| == |ids| => Sub(pieces[i], [ids[i]]))
  }

  function Window<D>(s: State<D>): bool { s.toolSeen && !s.inTool && !s.nonwsContent }

  function PlanOf<D>(setup: Setup<D>, s: State<D>, text: string, ids: seq<int>, finished: bool): Plan<D> {
    if ids == [] then Whole(s)
    else
      var decoded := PiecesOf(setup, s, ids, |ids|);
      if decoded.Raised? then Off
      else DecodedPlan(setup, decoded.value.0, decoded.value.1, text, ids, finished)
  }

  /** The plan once every token has its piece; decoding left the flags of `s` as they were. */
  function DecodedPlan<D>(setup: Setup<D>, s: State<D>, decoded: seq<string>, text: string, ids: seq<int>,
                          finished: bool): Plan<D>
    requires |decoded| == |ids|
  {
    var pieces := Rendered(decoded, text, finished);
    if pieces.Raised? then Off
    else
      var (seen, inside) := Tracked(setup.markers, s.toolSeen, s.inTool, ids, |ids|);
      var after := s.(toolSeen := seen, inTool := inside);
      if |ids| == 1 || !(Marked(setup, ids) || Window(s)) then Whole(after)
      else Split(after, SubsOf(pieces.value, ids))
  }

  function TextOf(subs: seq<Sub>): string {
    if subs == [] then "" else TextOf(subs[..|subs| - 1]) + subs[|subs| - 1].text
  }

  function IdsOf(subs: seq<Sub>): seq<int> {
    if subs == [] then [] else IdsOf(subs[..|subs| - 1]) + subs[|subs| - 1].ids
  }

  lemma {:induction false} SubsJoin(pieces: seq<string>, ids: seq<int>)
    requires |pieces| == |ids|
    ensures TextOf(SubsOf(pieces, ids)) == Text(pieces) && IdsOf(SubsOf(pieces, ids)) == ids
  {
    if ids != [] {
      var n := |ids| - 1;
      SubsJoin(pieces[..n], ids[..n]);
      assert SubsOf(pieces, ids)[..n] == SubsOf(pieces[..n], ids[..n]);
      assert ids == ids[..n] + [ids[n]];
    }
  }

  lemma RenderedJoins(pieces: seq<string>, text: string, finished: bool)
    requires Rendered(pieces, text, finished).Ok?
    ensures var rendered := Rendered(pieces, text, finished).value;
      |rendered| == |pieces| && Text(rendered) == text
  {
    var rendered := Rendered(pieces, text, finished).value;
    if Text(pieces) != text {
      assert rendered[..|rendered| - 1] == pieces[..|pieces| - 1];
      assert Text(rendered) == Text(pieces[..|pieces| - 1]) + "";
    }
  }

  /** Whenever a delta is split, its parts join to its text and its ids, one token each. */
  lemma SplitsJoin<D>(setup: Setup<D>, s: State<D>, text: string, ids: seq<int>, finished: bool)
    requires PlanOf(setup, s, text, ids, finished).Split?
    ensures var subs := PlanOf(setup, s, text, ids, finished).subs;
      && TextOf(subs) == text && IdsOf(subs) == ids && |subs| == |ids| >= 2
      && forall i :: 0 <= i < |subs| ==> subs[i].ids == [ids[i]]
  {
    var decoded := PiecesOf(setup, s, ids, |ids|);
    RenderedJoins(decoded.value.1, text, finished);
    SubsJoin(Rendered(decoded.value.1, text, finished).value, ids);
  }

  /**
   * The tool flags say what the ids say: a tool call was seen if one started, and is open if one started with no end
   * after it.
   */
  lemma {:induction false} TrackedIsHistory(markers: map<int, Terminal>, ids: seq<int>, n: nat)
    requires n <= |ids|
    ensures Tracked(markers, false, false, ids, n).0 <==> exists i :: 0 <= i < n && Is(markers, ids[i], ToolStart)
    ensures Tracked(markers, false, false, ids, n).1 <==> exists i :: 0 <= i < n && OpenSince(markers, ids, i, n)
  {
    if n > 0 {
      TrackedIsHistory(markers, ids, n - 1);
      OpenNext(markers, ids, n - 1, n);
    }
  }

  /** Id `i` starts a tool call that no id up to `n` ends. */
  predicate OpenSince(markers: map<int, Terminal>, ids: seq<int>, i: nat, n: nat)
    requires i < n <= |ids|
  {
    Is(markers, ids[i], ToolStart) && forall j :: i < j < n ==> !Is(markers, ids[j], ToolEnd)
  }

  /** A tool call is open after one more id if that id starts one, or if one was open and the id does not end it. */
  lemma OpenNext(markers: map<int, Terminal>, ids: seq<int>, n: nat, more: nat)
    requires n < |ids| && more == n + 1
    ensures (exists i :: 0 <= i < more && OpenSince(markers, ids, i, more)) <==>
            Is(markers, ids[n], ToolStart) ||
            (!Is(markers, ids[n], ToolEnd) && exists i :: 0 <= i < n && OpenSince(markers, ids, i, n))
  {
    if Is(markers, ids[n], ToolStart) {
      assert OpenSince(markers, ids, n, more);
    } else if i :| 0 <= i < n && OpenSince(markers, ids, i, n) {
      assert !Is(markers, ids[n], ToolEnd) ==> OpenSince(markers, ids, i, more);
    }
    if i :| 0 <= i < more && OpenSince(markers, ids, i, more) {
      assert i < n ==> OpenSince(markers, ids, i, n);
    }
  }

  predicate Is(markers: map<int, Terminal>, id: int, terminal: Terminal) { id in markers && markers[id] == terminal }

  /** Flags carry over from delta to delta. */
  lemma {:induction false} TrackedConcat(markers: map<int, Terminal>, a: seq<int>, b: seq<int>, n: nat)
    requires n <= |b|
    ensures var (seen, inside) := Tracked(markers, false, false, a, |a|);
      Tracked(markers, false, false, a + b, |a| + n) == Tracked(markers, seen, inside, b, n)
  {
    if n > 0 {
      TrackedConcat(markers, a, b, n - 1);
      assert (a + b)[|a| + n - 1] == b[n - 1];
    } else {
      TrackedPrefix(markers, a + b, a, |a|);
    }
  }

  lemma {:induction false} TrackedPrefix(markers: map<int, Terminal>, a: seq<int>, b: seq<int>, n: nat)
    requires n <= |a| && n <= |b| && a[..n] == b[..n]
    ensures Tracked(markers, false, false, a, n) == Tracked(markers, false, false, b, n)
  {
    if n > 0 {
      assert a[n - 1] == a[..n][n - 1] == b[..n][n - 1] == b[n - 1];
      assert a[..n - 1] == a[..n][..n - 1] == b[..n][..n - 1] == b[..n - 1];
      TrackedPrefix(markers, a, b, n - 1);
    }
  }

  // ----- parse_delta

  /** The stock parser: what it does with one delta's text, ids and whether the request is finished. */
  type Parser<!P> = (P, string, seq<int>, bool) -> (P, Option<Message>)

  /** An engine step's delta. */
  datatype Delta = Delta(text: string, ids: seq<int>, finished: bool)

  /** The stock parser on deltas in order: its state and its messages. */
  function Parse<P>(parser: Parser<P>, p: P, deltas: seq<Delta>): (P, seq<Option<Message>>) {
    if deltas == [] then (p, [])
    else
      var (before, messages) := Parse(parser, p, deltas[..|deltas| - 1]);
      var last := deltas[|deltas| - 1];
      var (after, message) := parser(before, last.text, last.ids, last.finished);
      (after, messages + [message])
  }

  /** The sub-deltas given to the parser: only the last one carries the delta's finished flag. */
  function SubDeltas(subs: seq<Sub>, finished: bool): (deltas: seq<Delta>)
    ensures |deltas| == |subs|
    ensures forall i :: 0 <= i < |subs| ==> deltas[i] == Delta(subs[i].text, subs[i].ids, finished && i == |subs| - 1)
  {
    seq(|subs|, (i: nat) requires i < |subs| => Delta(subs[i].text, subs[i].ids, finished && i == |subs| - 1))
  }

  /** A message with content that is not whitespace closes the whitespace window. */
  predicate HasText(isSpace: char -> bool, message: Option<Message>) {
    message.Some? && message.value.content.Some? &&
    exists i :: 0 <= i < |message.value.content.value| && !isSpace(message.value.content.value[i])
  }

  /** `observe`. */
  function Observed<D>(setup: Setup<D>, s: State<D>, message: Option<Message>): State<D> {
    s.(nonwsContent := s.nonwsContent || HasText(setup.isSpace, message))
  }

  /** What the parser is given for one delta. */
  function Fed<D>(plan: Plan<D>, delta: Delta): seq<Delta> {
    if plan.Split? then SubDeltas(plan.subs, delta.finished) else [delta]
  }

  /** A request: its stream state, or None once re-chunking is off, and the parser. */
  datatype Request<D, P> = Request(stream: Option<State<D>>, parser: P)

  /** The plan of a delta, if the stream is still on. */
  function PlanFor<D>(setup: Setup<D>, stream: Option<State<D>>, delta: Delta): Plan<D> {
    if stream.None? then Off else PlanOf(setup, stream.value, delta.text, delta.ids, delta.finished)
  }

  /** Whether and how building merged messages fails, delta by delta. */
  type Failures = nat -> Faults

  /** One wrapped `parse_delta`; a message that cannot be built switches re-chunking off. */
  function Delivered<D, P>(setup: Setup<D>, parser: Parser<P>, r: Request<D, P>, delta: Delta, faults: Faults)
    : (Request<D, P>, Option<Message>)
  {
    var plan := PlanFor(setup, r.stream, delta);
    var (after, messages) := Parse(parser, r.parser, Fed(plan, delta));
    var message := MergedOrKept(Present(messages), faults);
    (Request(if plan.Off? || Fails(Present(messages), faults) then None
             else Some(Observed(setup, plan.state, message)), after), message)
  }

  /** A request's deltas in order: the messages its client gets. */
  function Served<D, P>(setup: Setup<D>, parser: Parser<P>, r: Request<D, P>, deltas: seq<Delta>, failures: Failures)
    : (Request<D, P>, seq<Option<Message>>)
  {
    if deltas == [] then (r, [])
    else
      var n := |deltas| - 1;
      var (before, messages) := Served(setup, parser, r, deltas[..n], failures);
      var (after, message) := Delivered(setup, parser, before, deltas[n], failures(n));
      (after, messages + [message])
  }

  /** The finer deltas the parser was given in the same run. */
  function Finer<D, P>(setup: Setup<D>, parser: Parser<P>, r: Request<D, P>, deltas: seq<Delta>, failures: Failures)
    : seq<Delta>
  {
    if deltas == [] then []
    else
      var n := |deltas| - 1;
      var before := Served(setup, parser, r, deltas[..n], failures).0;
      var plan := PlanFor(setup, before.stream, deltas[n]);
      Finer(setup, parser, r, deltas[..n], failures) + Fed(plan, deltas[n])
  }

  /** The parser's messages for delta `n`. */
  function Parts<D, P>(setup: Setup<D>, parser: Parser<P>, r: Request<D, P>, deltas: seq<Delta>, failures: Failures,
                       n: nat): seq<Option<Message>>
    requires n < |deltas|
  {
    var before := Served(setup, parser, r, deltas[..n], failures).0;
    Parse(parser, before.parser, Fed(PlanFor(setup, before.stream, deltas[n]), deltas[n])).1
  }

  /** The parser's messages, delta by delta. */
  function AllParts<D, P>(setup: Setup<D>, parser: Parser<P>, r: Request<D, P>, deltas: seq<Delta>, failures: Failures)
    : (parts: seq<seq<Option<Message>>>)
    ensures |parts| == |deltas|
    ensures forall n :: 0 <= n < |deltas| ==> parts[n] == Parts(setup, parser, r, deltas, failures, n)
  {
    seq(|deltas|, (n: nat) requires n < |deltas| => Parts(setup, parser, r, deltas, failures, n))
  }

  lemma {:induction false} ParseConcat<P>(parser: Parser<P>, p: P, a: seq<Delta>, b: seq<Delta>)
    ensures var (middle, first) := Parse(parser, p, a);
      var (after, second) := Parse(parser, middle, b);
      Parse(parser, p, a + b) == (after, first + second)
  {
    if b == [] {
      assert a + b == a;
      assert Parse(parser, p, a).1 + [] == Parse(parser, p, a).1;
    } else {
      var n := |b| - 1;
      ParseConcat(parser, p, a, b[..n]);
      assert (a + b)[..|a + b| - 1] == a + b[..n] && (a + b)[|a + b| - 1] == b[n];
      var (middle, first) := Parse(parser, p, a);
      var (before, second) := Parse(parser, middle, b[..n]);
      var message := parser(before, b[n].text, b[n].ids, b[n].finished).1;
      assert first + (second + [message]) == (first + second) + [message];
    }
  }

  lemma {:induction false} ReceiveAllConcat(client: Client, a: seq<Option<Message>>, b: seq<Option<Message>>)
    ensures ReceiveAll(client, a + b) == ReceiveAll(ReceiveAll(client, a), b)
  {
    if b == [] {
      assert a + b == a;
    } else {
      ReceiveAllConcat(client, a, b[..|b| - 1]);
      assert (a + b)[..|a + b| - 1] == a + b[..|b| - 1];
    }
  }

  /** All messages of the parser on the finer deltas. */
  function FinerMessages<D, P>(setup: Setup<D>, parser: Parser<P>, r: Request<D, P>, deltas: seq<Delta>,
                               failures: Failures): seq<Option<Message>>
  {
    Parse(parser, r.parser, Finer(setup, parser, r, deltas, failures)).1
  }

  /** Over every run the stock parser ends where it would had it been given the finer deltas. */
  lemma {:induction false} ServedParserMeansFiner<D, P>(setup: Setup<D>, parser: Parser<P>, r: Request<D, P>,
                                                        deltas: seq<Delta>, failures: Failures)
    ensures Served(setup, parser, r, deltas, failures).0.parser ==
            Parse(parser, r.parser, Finer(setup, parser, r, deltas, failures)).0
  {
    if deltas != [] {
      var n := |deltas| - 1;
      ServedParserMeansFiner(setup, parser, r, deltas[..n], failures);
      var before := Served(setup, parser, r, deltas[..n], failures).0;
      ParseConcat(parser, r.parser, Finer(setup, parser, r, deltas[..n], failures),
                  Fed(PlanFor(setup, before.stream, deltas[n]), deltas[n]));
    }
  }

  /** What is served and what the parser gave, delta by delta. */
  lemma {:induction false} ServedParts<D, P>(setup: Setup<D>, parser: Parser<P>, r: Request<D, P>, deltas: seq<Delta>,
                                             failures: Failures)
    ensures Served(setup, parser, r, deltas, failures).1 ==
            KeptAll(AllParts(setup, parser, r, deltas, failures), failures)
    ensures FinerMessages(setup, parser, r, deltas, failures) ==
            Together(AllParts(setup, parser, r, deltas, failures))
  {
    if deltas != [] {
      var n := |deltas| - 1;
      ServedParts(setup, parser, r, deltas[..n], failures);
      PartsOfPrefix(setup, parser, r, deltas, failures, n);
      NextMessages(setup, parser, r, deltas, failures);
    }
  }

  lemma PartsOfPrefix<D, P>(setup: Setup<D>, parser: Parser<P>, r: Request<D, P>, deltas: seq<Delta>,
                            failures: Failures, n: nat)
    requires n <= |deltas|
    ensures AllParts(setup, parser, r, deltas, failures)[..n] == AllParts(setup, parser, r, deltas[..n], failures)
  {
    forall k | 0 <= k < n
      ensures Parts(setup, parser, r, deltas[..n], failures, k) == Parts(setup, parser, r, deltas, failures, k)
    {
      assert deltas[..n][..k] == deltas[..k];
    }
  }

  /** One more delta: its message, and the parts the parser gave for it. */
  lemma NextMessages<D, P>(setup: Setup<D>, parser: Parser<P>, r: Request<D, P>, deltas: seq<Delta>, failures: Failures)
    requires deltas != []
    ensures var n := |deltas| - 1;
      var parts := Parts(setup, parser, r, deltas, failures, n);
      && Served(setup, parser, r, deltas, failures).1 ==
         Served(setup, parser, r, deltas[..n], failures).1 + [MergedOrKept(Present(parts), failures(n))]
      && FinerMessages(setup, parser, r, deltas, failures) ==
         FinerMessages(setup, parser, r, deltas[..n], failures) + parts
  {
    var n := |deltas| - 1;
    ServedParserMeansFiner(setup, parser, r, deltas[..n], failures);
    var before := Served(setup, parser, r, deltas[..n], failures).0;
    ParseConcat(parser, r.parser, Finer(setup, parser, r, deltas[..n], failures),
                Fed(PlanFor(setup, before.stream, deltas[n]), deltas[n]));
  }

  // ----- Runs of messages

  /** The message kept for each delta. */
  function KeptAll(parts: seq<seq<Option<Message>>>, failures: Failures): seq<Option<Message>> {
    if parts == [] then []
    else
      var n := |parts| - 1;
      KeptAll(parts[..n], failures) + [MergedOrKept(Present(parts[n]), failures(n))]
  }

  /** All parts, one after the other. */
  function Together(parts: seq<seq<Option<Message>>>): seq<Option<Message>> {
    if parts == [] then [] else Together(parts[..|parts| - 1]) + parts[|parts| - 1]
  }

  /**
   * The message was built; or it was built from the calls listed again, and only the first calls of their indices have
   * arguments; or none was built, and the last sub-message says all there is to say.
   */
  predicate Harmless(parts: seq<Option<Message>>, faults: Faults) {
    Fails(Present(parts), faults) ==>
      if faults.relisting then LastSuffices(Present(parts)) else LaterArgless(Combined(Present(parts)).calls)
  }

  /** A message is built or built from the calls listed again, for each of the deltas. */
  predicate AlwaysBuilt(failures: Failures, n: nat) {
    forall k :: 0 <= k < n ==> !Both(failures(k))
  }

  predicate Both(faults: Faults) { faults.merging && faults.relisting }

  /** This client cannot tell a delta's message from the messages it was made of. */
  ghost predicate KeptAlike(client: Client, parts: seq<Option<Message>>, faults: Faults) {
    ReceiveAll(client, [MergedOrKept(Present(parts), faults)]) == ReceiveAll(client, parts)
  }

  /** One delta's message means what its parts do, if it is harmless. */
  lemma KeptMeansParts(client: Client, parts: seq<Option<Message>>, faults: Faults)
    requires Harmless(parts, faults)
    ensures KeptAlike(client, parts, faults)
  {
    if !Fails(Present(parts), faults) {
      MergedMeansTheSame(client, parts, true);
    } else if faults.relisting {
      LastAlike(client, parts, faults);
      SufficientMessage(client, Present(parts));
    } else {
      RelistedMessageMeansTheSame(client, parts, faults);
    }
  }

  /** When nothing can be built the client receives the last message instead of all. */
  lemma LastAlike(client: Client, parts: seq<Option<Message>>, faults: Faults)
    requires Fails(Present(parts), faults) && faults.relisting
    ensures KeptAlike(client, parts, faults) <==>
            Receive(client, LastRelisted(Present(parts))) == Receive(client, Combined(Present(parts)))
  {
    var kept := [MergedOrKept(Present(parts), faults)];
    CombinedMeansAll(client, parts);
    assert kept[..0] == [] && kept[0] == Some(LastRelisted(Present(parts)));
    assert ReceiveAll(client, kept[..0]) == client;
  }

  /** No client can tell a delta's message from the messages it was made of exactly when the delta is harmless. */
  lemma HarmlessMeansAlike(parts: seq<Option<Message>>, faults: Faults)
    ensures (forall client: Client :: KeptAlike(client, parts, faults)) <==> Harmless(parts, faults)
  {
    if Harmless(parts, faults) {
      forall client: Client ensures KeptAlike(client, parts, faults) {
        KeptMeansParts(client, parts, faults);
      }
    } else if KeptAlike(NEW_CLIENT, parts, faults) {
      if faults.relisting {
        LastAlike(NEW_CLIENT, parts, faults);
        NeededMessage(Present(parts));
      } else {
        RelistedMessageMeansTheSame(NEW_CLIENT, parts, faults);
      }
    }
  }

  /** Alike so far and alike from there on. */
  lemma AlikeOn(client: Client, a: seq<Option<Message>>, b: seq<Option<Message>>, c: seq<Option<Message>>,
                d: seq<Option<Message>>)
    requires ReceiveAll(client, a) == ReceiveAll(client, b)
    requires ReceiveAll(ReceiveAll(client, a), c) == ReceiveAll(ReceiveAll(client, a), d)
    ensures ReceiveAll(client, a + c) == ReceiveAll(client, b + d)
  {
    ReceiveAllConcat(client, a, c);
    ReceiveAllConcat(client, b, d);
  }

  lemma {:induction false} HarmlessMeansTogether(client: Client, parts: seq<seq<Option<Message>>>, failures: Failures)
    requires forall n :: 0 <= n < |parts| ==> Harmless(parts[n], failures(n))
    ensures ReceiveAll(client, KeptAll(parts, failures)) == ReceiveAll(client, Together(parts))
  {
    if parts != [] {
      var n := |parts| - 1;
      var front := parts[..n];
      HarmlessMeansTogether(client, front, failures);
      var kept := KeptAll(front, failures);
      KeptMeansParts(ReceiveAll(client, kept), parts[n], failures(n));
      AlikeOn(client, kept, Together(front), [MergedOrKept(Present(parts[n]), failures(n))], parts[n]);
    }
  }

  lemma {:induction false} SaidConcat(a: seq<Option<Message>>, b: seq<Option<Message>>, index: int)
    ensures SaidLength(a + b, index) == SaidLength(a, index) + SaidLength(b, index)
  {
    if b == [] {
      assert a + b == a;
    } else {
      SaidConcat(a, b[..|b| - 1], index);
      assert (a + b)[..|a + b| - 1] == a + b[..|b| - 1];
    }
  }

  /** How much more the message kept for some parts says of a call than they do. */
  function Surplus(parts: seq<Option<Message>>, faults: Faults, index: int): int {
    SaidLength([MergedOrKept(Present(parts), faults)], index) - SaidLength(parts, index)
  }

  /** How much more all kept messages say. */
  function TotalSurplus(parts: seq<seq<Option<Message>>>, failures: Failures, index: int): int {
    if parts == [] then 0
    else
      var n := |parts| - 1;
      TotalSurplus(parts[..n], failures, index) + Surplus(parts[n], failures(n), index)
  }

  lemma {:induction false} SurplusAddsUp(parts: seq<seq<Option<Message>>>, failures: Failures, index: int)
    ensures SaidLength(KeptAll(parts, failures), index) ==
            SaidLength(Together(parts), index) + TotalSurplus(parts, failures, index)
  {
    if parts != [] {
      var n := |parts| - 1;
      SurplusAddsUp(parts[..n], failures, index);
      SaidConcat(KeptAll(parts[..n], failures), [MergedOrKept(Present(parts[n]), failures(n))], index);
      SaidConcat(Together(parts[..n]), parts[n], index);
    }
  }

  /** No delta has a negative surplus, so one with a surplus makes the total positive. */
  lemma {:induction false} SurplusStays(parts: seq<seq<Option<Message>>>, failures: Failures, m: nat, index: int)
    requires AlwaysBuilt(failures, |parts|)
    ensures TotalSurplus(parts, failures, index) >=
            if m < |parts| then Surplus(parts[m], failures(m), index) else 0
  {
    if parts != [] {
      var n := |parts| - 1;
      SurplusStays(parts[..n], failures, m, index);
      assert m < n ==> parts[..n][m] == parts[m];
      SurplusNotNegative(parts[n], failures(n), index);
    }
  }

  lemma SurplusNotNegative(parts: seq<Option<Message>>, faults: Faults, index: int)
    requires !Both(faults)
    ensures Surplus(parts, faults, index) >= 0
  {
    KeptSaysAtLeast(parts, faults, index);
  }

  /** The kept messages mean what the parts do if every delta is harmless, and only then if one was always built. */
  lemma KeptMeansTogether(client: Client, parts: seq<seq<Option<Message>>>, failures: Failures)
    ensures (forall n :: 0 <= n < |parts| ==> Harmless(parts[n], failures(n))) ==>
              ReceiveAll(client, KeptAll(parts, failures)) == ReceiveAll(client, Together(parts))
    ensures AlwaysBuilt(failures, |parts|) &&
            ReceiveAll(client, KeptAll(parts, failures)) == ReceiveAll(client, Together(parts)) ==>
              forall n :: 0 <= n < |parts| ==> Harmless(parts[n], failures(n))
  {
    if forall n :: 0 <= n < |parts| ==> Harmless(parts[n], failures(n)) {
      HarmlessMeansTogether(client, parts, failures);
    } else if AlwaysBuilt(failures, |parts|) {
      var n :| 0 <= n < |parts| && !Harmless(parts[n], failures(n));
      var index := KeptSaysMore(parts[n], failures(n));
      SurplusStays(parts, failures, n, index);
      SurplusAddsUp(parts, failures, index);
      ReceivedLength(client, KeptAll(parts, failures), index);
      ReceivedLength(client, Together(parts), index);
    }
  }

  /**
   * Over every run, a client that reads the served messages ends where it would had it been given each message of the
   * finer deltas, if every delta is harmless; in particular when building never fails. When no delta fails twice it
   * does only then: no delta whose message could not be built had arguments in a call but the first of its index.
   */
  lemma ServedMeansFiner<D, P>(setup: Setup<D>, parser: Parser<P>, r: Request<D, P>, deltas: seq<Delta>,
                               failures: Failures, client: Client)
    ensures var parts := AllParts(setup, parser, r, deltas, failures);
      var alike := ReceiveAll(client, Served(setup, parser, r, deltas, failures).1) ==
                   ReceiveAll(client, FinerMessages(setup, parser, r, deltas, failures));
      var harmless := forall n :: 0 <= n < |deltas| ==> Harmless(parts[n], failures(n));
      (harmless ==> alike) && (AlwaysBuilt(failures, |deltas|) && alike ==> harmless)
  {
    ServedParts(setup, parser, r, deltas, failures);
    KeptMeansTogether(client, AllParts(setup, parser, r, deltas, failures), failures);
  }

  /** The texts and ids of deltas, joined. */
  function AllText(deltas: seq<Delta>): string {
    if deltas == [] then "" else AllText(deltas[..|deltas| - 1]) + deltas[|deltas| - 1].text
  }

  function AllIds(deltas: seq<Delta>): seq<int> {
    if deltas == [] then [] else AllIds(deltas[..|deltas| - 1]) + deltas[|deltas| - 1].ids
  }

  lemma SeqAssoc<T>(x: seq<T>, y: seq<T>, z: seq<T>)
    ensures (x + y) + z == x + (y + z)
  {
  }

  lemma {:induction false} AllConcat(a: seq<Delta>, b: seq<Delta>)
    ensures AllText(a + b) == AllText(a) + AllText(b) && AllIds(a + b) == AllIds(a) + AllIds(b)
  {
    if b == [] {
      assert a + b == a;
    } else {
      var front, last := b[..|b| - 1], b[|b| - 1];
      AllConcat(a, front);
      assert (a + b)[..|a + b| - 1] == a + front;
      SeqAssoc(AllText(a), AllText(front), last.text);
      SeqAssoc(AllIds(a), AllIds(front), last.ids);
    }
  }

  lemma {:induction false} SubDeltasJoin(subs: seq<Sub>, finished: bool, n: nat)
    requires n <= |subs|
    ensures AllText(SubDeltas(subs, finished)[..n]) == TextOf(subs[..n]) &&
              AllIds(SubDeltas(subs, finished)[..n]) == IdsOf(subs[..n])
  {
    if n > 0 {
      SubDeltasJoin(subs, finished, n - 1);
      assert SubDeltas(subs, finished)[..n][..n - 1] == SubDeltas(subs, finished)[..n - 1];
      assert subs[..n][..n - 1] == subs[..n - 1];
    }
  }

  lemma SubDeltasWhole(subs: seq<Sub>, finished: bool)
    ensures AllText(SubDeltas(subs, finished)) == TextOf(subs) && AllIds(SubDeltas(subs, finished)) == IdsOf(subs)
  {
    SubDeltasJoin(subs, finished, |subs|);
    assert SubDeltas(subs, finished)[..|subs|] == SubDeltas(subs, finished) && subs[..|subs|] == subs;
  }

  /** No text and no token is lost, repeated or moved: the finer deltas join to the run's. */
  lemma {:induction false} FinerJoins<D, P>(setup: Setup<D>, parser: Parser<P>, r: Request<D, P>, deltas: seq<Delta>,
                                            failures: Failures)
    ensures AllText(Finer(setup, parser, r, deltas, failures)) == AllText(deltas)
    ensures AllIds(Finer(setup, parser, r, deltas, failures)) == AllIds(deltas)
  {
    if deltas != [] {
      var n := |deltas| - 1;
      FinerJoins(setup, parser, r, deltas[..n], failures);
      var before := Served(setup, parser, r, deltas[..n], failures).0;
      var plan := PlanFor(setup, before.stream, deltas[n]);
      FedJoins(setup, before.stream, deltas[n], plan);
      AllConcat(Finer(setup, parser, r, deltas[..n], failures), Fed(plan, deltas[n]));
    }
  }

  lemma FedJoins<D>(setup: Setup<D>, stream: Option<State<D>>, delta: Delta, plan: Plan<D>)
    requires plan == PlanFor(setup, stream, delta)
    ensures AllText(Fed(plan, delta)) == delta.text && AllIds(Fed(plan, delta)) == delta.ids
  {
    if plan.Split? {
      SplitsJoin(setup, stream.value, delta.text, delta.ids, delta.finished);
      SubDeltasWhole(plan.subs, delta.finished);
    } else {
      assert [delta][..0] == [];
    }
  }

  lemma DecodedFlags<D>(setup: Setup<D>, s: State<D>, decoded: seq<string>, text: string, ids: seq<int>, finished: bool)
    requires |decoded| == |ids| && !DecodedPlan(setup, s, decoded, text, ids, finished).Off?
    ensures var after := DecodedPlan(setup, s, decoded, text, ids, finished).state;
      && (after.toolSeen, after.inTool) == Tracked(setup.markers, s.toolSeen, s.inTool, ids, |ids|)
      && after.nonwsContent == s.nonwsContent
  {
  }

  lemma PlanFlags<D>(setup: Setup<D>, s: State<D>, text: string, ids: seq<int>, finished: bool)
    requires !PlanOf(setup, s, text, ids, finished).Off?
    ensures var after := PlanOf(setup, s, text, ids, finished).state;
      && (after.toolSeen, after.inTool) == Tracked(setup.markers, s.toolSeen, s.inTool, ids, |ids|)
      && after.nonwsContent == s.nonwsContent
  {
    if ids != [] {
      var decoded := PiecesOf(setup, s, ids, |ids|).value;
      DecodedFlags(setup, decoded.0, decoded.1, text, ids, finished);
    }
  }

  /** The flags a delta leaves, while the stream is on. */
  lemma DeliveredFlags<D, P>(setup: Setup<D>, parser: Parser<P>, r: Request<D, P>, delta: Delta, faults: Faults)
    requires Delivered(setup, parser, r, delta, faults).0.stream.Some?
    ensures r.stream.Some?
    ensures var s, (after, message) := r.stream.value, Delivered(setup, parser, r, delta, faults);
      var t := after.stream.value;
      && (t.toolSeen, t.inTool) == Tracked(setup.markers, s.toolSeen, s.inTool, delta.ids, |delta.ids|)
      && t.nonwsContent == (s.nonwsContent || HasText(setup.isSpace, message))
  {
    PlanFlags(setup, r.stream.value, delta.text, delta.ids, delta.finished);
  }

  /** Character `i` of the content of message `k` is not whitespace. */
  predicate Shows(isSpace: char -> bool, messages: seq<Option<Message>>, k: nat, i: nat)
    requires k < |messages|
  {
    && messages[k].Some? && messages[k].value.content.Some?
    && i < |messages[k].value.content.value| && !isSpace(messages[k].value.content.value[i])
  }

  /** Some message had content other than whitespace. */
  ghost predicate HadText(isSpace: char -> bool, messages: seq<Option<Message>>) {
    exists k: nat, i: nat :: k < |messages| && Shows(isSpace, messages, k, i)
  }

  /** The state's flags are those of a history of ids and messages. */
  ghost predicate FlagsSay<D>(setup: Setup<D>, s: State<D>, ids: seq<int>, messages: seq<Option<Message>>) {
    && (s.toolSeen, s.inTool) == Tracked(setup.markers, false, false, ids, |ids|)
    && (s.nonwsContent <==> HadText(setup.isSpace, messages))
  }

  lemma FlagsGrow<D>(setup: Setup<D>, s: State<D>, t: State<D>, ids: seq<int>, own: seq<int>,
                     messages: seq<Option<Message>>,
                     message: Option<Message>)
    requires FlagsSay(setup, s, ids, messages)
    requires (t.toolSeen, t.inTool) == Tracked(setup.markers, s.toolSeen, s.inTool, own, |own|)
    requires t.nonwsContent == (s.nonwsContent || HasText(setup.isSpace, message))
    ensures FlagsSay(setup, t, ids + own, messages + [message])
  {
    TrackedConcat(setup.markers, ids, own, |own|);
    assert |ids + own| == |ids| + |own|;
    HistoryGrows(setup, messages, message);
  }

  /**
   * In every run, while re-chunking is on, the whitespace window is what the request's history says: a tool call has
   * started, none is open, and no message so far had content other than whitespace.
   */
  lemma {:induction false} WindowIsHistory<D, P>(setup: Setup<D>, parser: Parser<P>, r: Request<D, P>,
                                                 deltas: seq<Delta>, failures: Failures)
    requires r.stream.Some? && Flags(r.stream.value) == (false, false, false)
    requires Served(setup, parser, r, deltas, failures).0.stream.Some?
    ensures FlagsSay(setup, Served(setup, parser, r, deltas, failures).0.stream.value, AllIds(deltas),
                     Served(setup, parser, r, deltas, failures).1)
  {
    if deltas != [] {
      var front, last := deltas[..|deltas| - 1], deltas[|deltas| - 1];
      var before := Served(setup, parser, r, front, failures);
      var after := Delivered(setup, parser, before.0, last, failures(|front|));
      DeliveredFlags(setup, parser, before.0, last, failures(|front|));
      WindowIsHistory(setup, parser, r, front, failures);
      FlagsGrow(setup, before.0.stream.value, after.0.stream.value, AllIds(front), last.ids, before.1, after.1);
    }
  }

  lemma HistoryGrows<D>(setup: Setup<D>, messages: seq<Option<Message>>, message: Option<Message>)
    ensures HadText(setup.isSpace, messages + [message]) <==>
            HadText(setup.isSpace, messages) || HasText(setup.isSpace, message)
  {
    var all := messages + [message];
    if k: nat, i: nat :| k < |messages| && Shows(setup.isSpace, messages, k, i) {
      assert Shows(setup.isSpace, all, k, i);
    }
    if HasText(setup.isSpace, message) {
      var text := message.value.content.value;
      var i :| 0 <= i < |text| && !setup.isSpace(text[i]);
      assert Shows(setup.isSpace, all, |messages|, i);
    }
    if k: nat, i: nat :| k < |all| && Shows(setup.isSpace, all, k, i) {
      assert k < |messages| ==> Shows(setup.isSpace, messages, k, i);
    }
  }

  // ----- What the pieces are

  function TextOr(text: Option<string>): string { if text.None? then "" else text.value }

  /**
   * What the decoder, stepped from `before` on an id, leads to and gives: nothing if it refuses the id, and if it finds
   * the prefix invalid, what the unprimed stream gives.
   */
  function Given<D>(setup: Setup<D>, before: D, id: int): Option<(D, string)> {
    match setup.step(before, id)
    case Piece(next, text) => Some((next, TextOr(text)))
    case Refused(next) => Some((next, ""))
    case InvalidPrefix =>
      var again := setup.step(setup.unprimed, id);
      if again.Piece? then Some((again.next, TextOr(again.text))) else None
    case Broken => None
  }

  /** Id `i` is an added token right after an added token, with special tokens not spaced. */
  predicate Repeats<D>(setup: Setup<D>, primed: State<D>, ids: seq<int>, i: nat)
    requires i < |ids|
  {
    !setup.spaces && ids[i] in setup.added && if i == 0 then primed.lastSpecial else ids[i - 1] in setup.added
  }

  /** Piece `i` is what the decoder gives for id `i`, or the content of an added token that repeats. */
  ghost predicate PieceIs<D>(setup: Setup<D>, primed: State<D>, ids: seq<int>, decoders: seq<D>, pieces: seq<string>,
                             i: nat)
    requires i < |pieces| <= |ids| && |decoders| == |pieces| + 1
  {
    var given := Given(setup, decoders[i], ids[i]);
    && given.Some? && decoders[i + 1] == given.value.0
    && pieces[i] == if Repeats(setup, primed, ids, i) then setup.added[ids[i]] else given.value.1
  }

  /** The decoders a stream goes through over some ids, and the pieces it renders. */
  ghost predicate Traces<D>(setup: Setup<D>, primed: State<D>, ids: seq<int>, decoders: seq<D>, pieces: seq<string>) {
    && |pieces| <= |ids| && |decoders| == |pieces| + 1 && decoders[0] == primed.decoder
    && forall i :: 0 <= i < |pieces| ==> PieceIs(setup, primed, ids, decoders, pieces, i)
  }

  lemma StepGives<D>(setup: Setup<D>, s: State<D>, id: int)
    ensures var step, given := StepOf(setup, s, id), Given(setup, s.decoder, id);
      && (step.Ok? <==> given.Some?)
      && (step.Ok? ==>
            var (next, piece) := step.value;
            && next.decoder == given.value.0
            && next.lastSpecial == (if setup.spaces then s.lastSpecial else id in setup.added)
            && piece == if !setup.spaces && id in setup.added && s.lastSpecial then setup.added[id]
                        else given.value.1)
  {
  }

  /** The stream's special flag after some ids. */
  function SpecialAfter<D>(setup: Setup<D>, primed: State<D>, ids: seq<int>, n: nat): bool
    requires n <= |ids|
  {
    if setup.spaces || n == 0 then primed.lastSpecial else ids[n - 1] in setup.added
  }

  /** The pieces of some ids are those of a trace, and there are none if no trace covers the ids. */
  lemma {:induction false} PiecesTrace<D>(setup: Setup<D>, s: State<D>, ids: seq<int>, n: nat)
    returns (decoders: seq<D>)
    requires n <= |ids| && PiecesOf(setup, s, ids, n).Ok?
    ensures var (now, pieces) := PiecesOf(setup, s, ids, n).value;
      && Traces(setup, s, ids, decoders, pieces) && decoders[n] == now.decoder
      && now.lastSpecial == SpecialAfter(setup, s, ids, n)
  {
    if n == 0 {
      decoders := [s.decoder];
    } else {
      var front := PiecesTrace(setup, s, ids, n - 1);
      var (before, pieces) := PiecesOf(setup, s, ids, n - 1).value;
      var (now, piece) := StepOf(setup, before, ids[n - 1]).value;
      StepGives(setup, before, ids[n - 1]);
      decoders := front + [now.decoder];
      TraceGrows(setup, s, ids, front, pieces, now.decoder, piece);
    }
  }

  lemma TraceGrows<D>(setup: Setup<D>, s: State<D>, ids: seq<int>, decoders: seq<D>, pieces: seq<string>, after: D,
                      piece: string)
    requires Traces(setup, s, ids, decoders, pieces) && |pieces| < |ids|
    requires var given := Given(setup, decoders[|pieces|], ids[|pieces|]);
      && given.Some? && after == given.value.0
      && piece == if Repeats(setup, s, ids, |pieces|) then setup.added[ids[|pieces|]] else given.value.1
    ensures Traces(setup, s, ids, decoders + [after], pieces + [piece])
  {
    forall i | 0 <= i < |pieces| + 1 ensures PieceIs(setup, s, ids, decoders + [after], pieces + [piece], i) {
      assert i < |pieces| ==> PieceIs(setup, s, ids, decoders, pieces, i);
    }
  }

  lemma {:induction false} TracePieces<D>(setup: Setup<D>, s: State<D>, ids: seq<int>, decoders: seq<D>,
                                          pieces: seq<string>)
    requires Traces(setup, s, ids, decoders, pieces)
    ensures var all := PiecesOf(setup, s, ids, |pieces|);
      && all.Ok? && all.value.1 == pieces && all.value.0.decoder == decoders[|pieces|]
      && all.value.0.lastSpecial == SpecialAfter(setup, s, ids, |pieces|)
  {
    if pieces != [] {
      var n := |pieces| - 1;
      var front, fewer := decoders[..n + 1], pieces[..n];
      forall i | 0 <= i < n ensures PieceIs(setup, s, ids, front, fewer, i) {
        assert PieceIs(setup, s, ids, decoders, pieces, i);
      }
      TracePieces(setup, s, ids, front, fewer);
      assert PieceIs(setup, s, ids, decoders, pieces, n);
      StepGives(setup, PiecesOf(setup, s, ids, n).value.0, ids[n]);
      assert pieces == fewer + [pieces[n]];
    }
  }

  /**
   * A stream renders some ids, as exactly these pieces, if and only if the decoder, stepped over the ids in order,
   * gives a text for each: the pieces are those texts, but the content of an added token where two follow each other
   * and special tokens are not spaced.
   */
  lemma PiecesExactlyWhen<D>(setup: Setup<D>, s: State<D>, ids: seq<int>, pieces: seq<string>)
    requires |pieces| == |ids|
    ensures (PiecesOf(setup, s, ids, |ids|).Ok? && PiecesOf(setup, s, ids, |ids|).value.1 == pieces) <==>
            exists decoders: seq<D> :: Traces(setup, s, ids, decoders, pieces)
  {
    if PiecesOf(setup, s, ids, |ids|).Ok? {
      var decoders := PiecesTrace(setup, s, ids, |ids|);
      assert Traces(setup, s, ids, decoders, PiecesOf(setup, s, ids, |ids|).value.1);
    }
    if decoders: seq<D> :| Traces(setup, s, ids, decoders, pieces) {
      TracePieces(setup, s, ids, decoders, pieces);
    }
  }

  // ----- When a delta is split

  /** The private stream rendered `ids` from `primed` and stands where `s` does. */
  ghost predicate Followed<D>(setup: Setup<D>, primed: State<D>, ids: seq<int>, s: State<D>) {
    var all := PiecesOf(setup, primed, ids, |ids|);
    all.Ok? && all.value.0.decoder == s.decoder && all.value.0.lastSpecial == s.lastSpecial
  }

  /** What the private stream renders for `own` once it has rendered `ids` from `primed`, or a failure. */
  function RenderedAfter<D>(setup: Setup<D>, primed: State<D>, ids: seq<int>, own: seq<int>): (r: Result<seq<string>>)
    ensures r.Ok? ==> |r.value| == |own|
  {
    var all := PiecesOf(setup, primed, ids + own, |ids + own|);
    if all.Raised? then Raised else Ok(all.value.1[|ids|..])
  }

  /** Rendering does not depend on the flags. */
  lemma {:induction false} PiecesIgnoreFlags<D>(setup: Setup<D>, s: State<D>, t: State<D>, ids: seq<int>, n: nat)
    requires n <= |ids| && s.decoder == t.decoder && s.lastSpecial == t.lastSpecial
    ensures var a, b := PiecesOf(setup, s, ids, n), PiecesOf(setup, t, ids, n);
      && (a.Ok? <==> b.Ok?)
      && (a.Ok? ==> a.value.1 == b.value.1 && a.value.0.decoder == b.value.0.decoder
                    && a.value.0.lastSpecial == b.value.0.lastSpecial)
  {
    if n > 0 {
      PiecesIgnoreFlags(setup, s, t, ids, n - 1);
    }
  }

  lemma {:induction false} PiecesOfPrefix<D>(setup: Setup<D>, s: State<D>, a: seq<int>, b: seq<int>, n: nat)
    requires n <= |a|
    ensures PiecesOf(setup, s, a + b, n) == PiecesOf(setup, s, a, n)
  {
    if n > 0 {
      PiecesOfPrefix(setup, s, a, b, n - 1);
      assert (a + b)[n - 1] == a[n - 1];
    }
  }

  /** Rendering some ids and then others. */
  lemma {:induction false} PiecesConcat<D>(setup: Setup<D>, s: State<D>, a: seq<int>, b: seq<int>, n: nat)
    requires n <= |b| && PiecesOf(setup, s, a, |a|).Ok?
    ensures var (middle, first) := PiecesOf(setup, s, a, |a|).value;
      var all, second := PiecesOf(setup, s, a + b, |a| + n), PiecesOf(setup, middle, b, n);
      && (all.Ok? <==> second.Ok?)
      && (all.Ok? ==> all.value == (second.value.0, first + second.value.1))
  {
    if n == 0 {
      PiecesOfPrefix(setup, s, a, b, |a|);
      assert PiecesOf(setup, s, a, |a|).value.1 + [] == PiecesOf(setup, s, a, |a|).value.1;
    } else {
      PiecesConcat(setup, s, a, b, n - 1);
      assert (a + b)[|a| + n - 1] == b[n - 1];
      var (middle, first) := PiecesOf(setup, s, a, |a|).value;
      var second := PiecesOf(setup, middle, b, n);
      if second.Ok? {
        SeqAssoc(first, second.value.1[..n - 1], second.value.1[n - 1..]);
      }
    }
  }

  /** What a stream that followed `ids` renders next. */
  lemma FollowedRenders<D>(setup: Setup<D>, primed: State<D>, ids: seq<int>, s: State<D>, own: seq<int>)
    requires Followed(setup, primed, ids, s)
    ensures var pieces, next := RenderedAfter(setup, primed, ids, own), PiecesOf(setup, s, own, |own|);
      && (pieces.Ok? <==> next.Ok?)
      && (next.Ok? ==> pieces.value == next.value.1 && Followed(setup, primed, ids + own, next.value.0))
  {
    var (middle, first) := PiecesOf(setup, primed, ids, |ids|).value;
    PiecesConcat(setup, primed, ids, own, |own|);
    PiecesIgnoreFlags(setup, middle, s, own, |own|);
    assert |ids + own| == |ids| + |own|;
    var all := PiecesOf(setup, primed, ids + own, |ids + own|);
    if all.Ok? {
      assert all.value.1[|ids|..] == PiecesOf(setup, middle, own, |own|).value.1;
    }
  }

  /** The pieces are the delta's text, or that text and the piece of a stop token at the end of a finished request. */
  predicate Agree(pieces: seq<string>, delta: Delta) {
    Text(pieces) == delta.text || (delta.finished && pieces != [] && Text(pieces[..|pieces| - 1]) == delta.text)
  }

  /** The private stream that rendered `ids` from `primed` renders the delta's tokens, and as the delta's text. */
  predicate Rendering<D>(setup: Setup<D>, primed: State<D>, ids: seq<int>, delta: Delta) {
    var pieces := RenderedAfter(setup, primed, ids, delta.ids);
    pieces.Ok? && Agree(pieces.value, delta)
  }

  /** By the ids and messages so far a tool call started, none is open, and no message had text. */
  ghost predicate AwaitsText(markers: map<int, Terminal>, isSpace: char -> bool, ids: seq<int>,
                       messages: seq<Option<Message>>)
  {
    && (exists i :: 0 <= i < |ids| && Is(markers, ids[i], ToolStart))
    && !(exists i :: 0 <= i < |ids| && OpenSince(markers, ids, i, |ids|))
    && !HadText(isSpace, messages)
  }

  /** One delta a token: its piece, but for a stop token's, and the request finishes with the last one. */
  predicate OneByOne(given: seq<Delta>, pieces: seq<string>, delta: Delta) {
    && |given| == |pieces| == |delta.ids|
    && forall i :: 0 <= i < |given| ==>
         var last := i == |given| - 1;
         && given[i].ids == [delta.ids[i]] && given[i].finished == (last && delta.finished)
         && given[i].text == if last && Text(pieces) != delta.text then "" else pieces[i]
  }

  /** The plan of decoded pieces. */
  lemma DecodedPlanIs<D>(setup: Setup<D>, s: State<D>, decoded: seq<string>, delta: Delta)
    requires |decoded| == |delta.ids| > 0
    ensures var plan := DecodedPlan(setup, s, decoded, delta.text, delta.ids, delta.finished);
      && (plan.Off? <==> !Agree(decoded, delta))
      && (!plan.Off? ==> plan.state.decoder == s.decoder && plan.state.lastSpecial == s.lastSpecial)
      && (plan.Split? <==> Agree(decoded, delta) && |delta.ids| >= 2 && (Marked(setup, delta.ids) || Window(s)))
      && if plan.Split? then OneByOne(Fed(plan, delta), decoded, delta) else Fed(plan, delta) == [delta]
  {
  }

  /** One delta for a stream that followed the request so far. */
  lemma PlanFollows<D>(setup: Setup<D>, primed: State<D>, ids: seq<int>, s: State<D>, delta: Delta)
    requires Followed(setup, primed, ids, s)
    ensures var plan, follows := PlanFor(setup, Some(s), delta), Rendering(setup, primed, ids, delta);
      && (plan.Off? <==> delta.ids != [] && !follows)
      && (!plan.Off? ==> Followed(setup, primed, ids + delta.ids, plan.state))
      && (plan.Split? <==> follows && |delta.ids| >= 2 && (Marked(setup, delta.ids) || Window(s)))
      && if plan.Split? then OneByOne(Fed(plan, delta), RenderedAfter(setup, primed, ids, delta.ids).value, delta)
         else Fed(plan, delta) == [delta]
  {
    if delta.ids == [] {
      assert ids + delta.ids == ids;
    } else {
      FollowedRenders(setup, primed, ids, s, delta.ids);
      var decoded := PiecesOf(setup, s, delta.ids, |delta.ids|);
      if decoded.Ok? {
        DecodedPlanIs(setup, decoded.value.0, decoded.value.1, delta);
        assert Flags(decoded.value.0) == Flags(s);
      }
    }
  }

  /** While it is on, the private stream has rendered all ids of the request. */
  lemma {:induction false} StreamFollows<D, P>(setup: Setup<D>, parser: Parser<P>, r: Request<D, P>,
                                               deltas: seq<Delta>, failures: Failures)
    requires r.stream.Some? && Served(setup, parser, r, deltas, failures).0.stream.Some?
    ensures Followed(setup, r.stream.value, AllIds(deltas),
                     Served(setup, parser, r, deltas, failures).0.stream.value)
  {
    if deltas != [] {
      var front, last := deltas[..|deltas| - 1], deltas[|deltas| - 1];
      var before := Served(setup, parser, r, front, failures).0;
      StreamFollows(setup, parser, r, front, failures);
      PlanFollows(setup, r.stream.value, AllIds(front), before.stream.value, last);
    }
  }

  /** What the parser is given for the next delta of a run. */
  function GivenFor<D, P>(setup: Setup<D>, parser: Parser<P>, r: Request<D, P>, deltas: seq<Delta>, failures: Failures,
                          next: Delta): seq<Delta>
  {
    var before, after := Finer(setup, parser, r, deltas, failures), Finer(setup, parser, r, deltas + [next], failures);
    if before <= after then after[|before|..] else []
  }

  /** The step of a run that serves one more delta. */
  lemma NextDelta<D, P>(setup: Setup<D>, parser: Parser<P>, r: Request<D, P>, deltas: seq<Delta>, failures: Failures,
                        next: Delta)
    ensures var before, all := Served(setup, parser, r, deltas, failures).0, deltas + [next];
      var plan := PlanFor(setup, before.stream, next);
      && GivenFor(setup, parser, r, deltas, failures, next) == Fed(plan, next)
      && (Served(setup, parser, r, all, failures).0.stream.None? <==>
            plan.Off? || Fails(Present(Parts(setup, parser, r, all, failures, |deltas|)), failures(|deltas|)))
  {
    assert (deltas + [next])[..|deltas|] == deltas;
    var before := Finer(setup, parser, r, deltas, failures);
    var after := Finer(setup, parser, r, deltas + [next], failures);
    var plan := PlanFor(setup, Served(setup, parser, r, deltas, failures).0.stream, next);
    assert after == before + Fed(plan, next);
  }

  /** The whitespace window, said by the ids and messages so far. */
  lemma WindowSays<D>(setup: Setup<D>, s: State<D>, ids: seq<int>, messages: seq<Option<Message>>)
    requires FlagsSay(setup, s, ids, messages)
    ensures Window(s) <==> AwaitsText(setup.markers, setup.isSpace, ids, messages)
  {
    TrackedIsHistory(setup.markers, ids, |ids|);
  }

  /**
   * In every run with the stream on, the parser gets the next delta's tokens one at a time if and only if the private
   * stream renders them as its text (leaving out a stop token's when finished), there are at least two, and one is a
   * marker or the ids and messages so far say that a tool call started, none is open and no message had text; otherwise
   * it gets the delta. The stream goes off if and only if it renders another text or none, or the messages of a split
   * delta cannot be merged.
   */
  lemma SplitExactlyWhen<D, P>(setup: Setup<D>, parser: Parser<P>, r: Request<D, P>, deltas: seq<Delta>,
                               failures: Failures, next: Delta)
    requires r.stream.Some? && Flags(r.stream.value) == (false, false, false)
    requires Served(setup, parser, r, deltas, failures).0.stream.Some?
    ensures var ids, messages := AllIds(deltas), Served(setup, parser, r, deltas, failures).1;
      var follows := Rendering(setup, r.stream.value, ids, next);
      var split := follows && |next.ids| >= 2 &&
        ((exists i :: 0 <= i < |next.ids| && next.ids[i] in setup.markers)
         || AwaitsText(setup.markers, setup.isSpace, ids, messages));
      var given := GivenFor(setup, parser, r, deltas, failures, next);
      && (if split then OneByOne(given, RenderedAfter(setup, r.stream.value, ids, next.ids).value, next)
          else given == [next])
      && (Served(setup, parser, r, deltas + [next], failures).0.stream.None? <==>
            (next.ids != [] && !follows) ||
            Fails(Present(Parts(setup, parser, r, deltas + [next], failures, |deltas|)), failures(|deltas|)))
  {
    var ids, before := AllIds(deltas), Served(setup, parser, r, deltas, failures);
    var s := before.0.stream.value;
    NextDelta(setup, parser, r, deltas, failures, next);
    StreamFollows(setup, parser, r, deltas, failures);
    PlanFollows(setup, r.stream.value, ids, s, next);
    WindowIsHistory(setup, parser, r, deltas, failures);
    WindowSays(setup, s, ids, before.1);
  }

  lemma {:induction false} StaysOff<D, P>(setup: Setup<D>, parser: Parser<P>, r: Request<D, P>, deltas: seq<Delta>,
                                          failures: Failures)
    requires r.stream.None?
    ensures Served(setup, parser, r, deltas, failures).0.stream.None?
  {
    if deltas != [] {
      StaysOff(setup, parser, r, deltas[..|deltas| - 1], failures);
    }
  }

  /** Once off, re-chunking stays off for the request: whatever was served since, the next delta goes whole. */
  lemma OffForGood<D, P>(setup: Setup<D>, parser: Parser<P>, r: Request<D, P>, deltas: seq<Delta>, failures: Failures,
                         next: Delta)
    requires r.stream.None?
    ensures Fed(PlanFor(setup, Served(setup, parser, r, deltas, failures).0.stream, next), next) == [next]
  {
    StaysOff(setup, parser, r, deltas, failures);
  }

  // ----- The stream object

  /** `Stream`: one request's private decode stream and whitespace window. */
  class Stream<D> {
    const setup: Setup<D>
    var on: bool
    var decoder: D
    var lastSpecial: bool
    var toolSeen: bool
    var inTool: bool
    var nonwsContent: bool

    /** A stream starts with a decoder primed with the prompt's tail, outside any tool call. */
    constructor (setup: Setup<D>, primed: D)
      ensures on && this.setup == setup && Fields() == State(primed, false, false, false, false)
    {
      this.setup := setup;
      on, decoder, lastSpecial := true, primed, false;
      toolSeen, inTool, nonwsContent := false, false, false;
    }

    ghost function Fields(): State<D>
      reads this
    {
      State(decoder, lastSpecial, toolSeen, inTool, nonwsContent)
    }

    method Step(id: int) returns (piece: Result<string>)
      modifies this`decoder, this`lastSpecial
      ensures piece.Ok? <==> StepOf(setup, old(Fields()), id).Ok?
      ensures piece.Ok? ==> StepOf(setup, old(Fields()), id) == Ok((Fields(), piece.value))
    {
      var text: Option<string>;
      match setup.step(decoder, id) {
        case Piece(next, rendered) => decoder, text := next, rendered;
        case Refused(next) => decoder, text := next, None;
        case InvalidPrefix =>
          decoder := setup.unprimed;
          match setup.step(decoder, id) {
            case Piece(next, rendered) => decoder, text := next, rendered;
            case _ => return Raised;
          }
        case Broken => return Raised;
      }
      if !setup.spaces {
        if id in setup.added {
          if lastSpecial {
            text := Some(setup.added[id]);
          }
          lastSpecial := true;
        } else {
          lastSpecial := false;
        }
      }
      piece := Ok(if text.None? then "" else text.value);
    }

    method SwitchOff()
      modifies this`on
      ensures !on
    {
      on := false;
    }

    /** The pieces of a delta, or a failure of the private stream. */
    method Pieces(ids: seq<int>) returns (r: Result<seq<string>>)
      modifies this`decoder, this`lastSpecial
      ensures r.Ok? <==> PiecesOf(setup, old(Fields()), ids, |ids|).Ok?
      ensures r.Ok? ==> PiecesOf(setup, old(Fields()), ids, |ids|) == Ok((Fields(), r.value))
    {
      var pieces: seq<string> := [];
      for i := 0 to |ids|
        invariant PiecesOf(setup, old(Fields()), ids, i) == Ok((Fields(), pieces))
      {
        PiecesStep(setup, old(Fields()), ids, i, Fields(), pieces);
        var piece := Step(ids[i]);
        if piece.Raised? {
          PiecesFail(setup, old(Fields()), ids, i + 1, |ids|);
          return Raised;
        }
        pieces := pieces + [piece.value];
      }
      r := Ok(pieces);
    }

    /** The marker loop of `plan`. */
    method Track(ids: seq<int>) returns (marked: bool)
      modifies this`toolSeen, this`inTool
      ensures marked == Marked(setup, ids)
      ensures (toolSeen, inTool) == Tracked(setup.markers, old(toolSeen), old(inTool), ids, |ids|)
    {
      marked := false;
      for i := 0 to |ids|
        invariant marked == exists j :: 0 <= j < i && ids[j] in setup.markers
        invariant (toolSeen, inTool) == Tracked(setup.markers, old(toolSeen), old(inTool), ids, i)
      {
        if ids[i] in setup.markers {
          marked := true;
          var terminal := setup.markers[ids[i]];
          if terminal == ToolStart {
            toolSeen, inTool := true, true;
          } else if terminal == ToolEnd {
            inTool := false;
          }
        }
      }
    }

    /**
     * `plan`: the sub-deltas, or none for the whole delta; a stream that cannot follow the engine switches itself off.
     */
    method MakePlan(text: string, ids: seq<int>, finished: bool) returns (subs: Option<seq<Sub>>)
      requires on
      modifies this
      ensures on == !PlanOf(setup, old(Fields()), text, ids, finished).Off?
      ensures on ==> Fields() == PlanOf(setup, old(Fields()), text, ids, finished).state
      ensures subs == var plan := PlanOf(setup, old(Fields()), text, ids, finished);
                      if plan.Split? then Some(plan.subs) else None
    {
      if ids == [] {
        return None;
      }
      var decoded := Pieces(ids);
      if decoded.Raised? {
        SwitchOff();
        return None;
      }
      subs := PlanDecoded(decoded.value, text, ids, finished);
    }

    /** The plan of a decoded delta. */
    method PlanDecoded(decoded: seq<string>, text: string, ids: seq<int>, finished: bool)
      returns (subs: Option<seq<Sub>>)
      requires on && |decoded| == |ids|
      modifies this
      ensures on == !DecodedPlan(setup, old(Fields()), decoded, text, ids, finished).Off?
      ensures on ==> Fields() == DecodedPlan(setup, old(Fields()), decoded, text, ids, finished).state
      ensures subs == var plan := DecodedPlan(setup, old(Fields()), decoded, text, ids, finished);
                      if plan.Split? then Some(plan.subs) else None
    {
      var pieces := Render(decoded, text, finished);
      if pieces.Raised? {
        SwitchOff();
        return None;
      }
      subs := SplitPieces(pieces.value, ids);
    }

    /** Whether the pieces are fed one by one, with the tool flags brought up to date. */
    method SplitPieces(pieces: seq<string>, ids: seq<int>) returns (subs: Option<seq<Sub>>)
      requires |pieces| == |ids|
      modifies this`toolSeen, this`inTool
      ensures (toolSeen, inTool) == Tracked(setup.markers, old(toolSeen), old(inTool), ids, |ids|)
      ensures subs == if |ids| == 1 || !(Marked(setup, ids) || Window(old(Fields()))) then None
                      else Some(SubsOf(pieces, ids))
    {
      var window := toolSeen && !inTool && !nonwsContent;
      var marked := Track(ids);
      if |ids| == 1 || !(marked || window) {
        return None;
      }
      subs := Some(SubsOf(pieces, ids));
    }

    method Observe(message: Option<Message>)
      modifies this`nonwsContent
      ensures Fields() == Observed(setup, old(Fields()), message)
    {
      if !nonwsContent && HasText(setup.isSpace, message) {
        nonwsContent := true;
      }
    }

    ghost function Requested<P>(parser: P): Request<D, P>
      reads this
    {
      Request(if on then Some(Fields()) else None, parser)
    }

    /** `merge` of the stream: a message that cannot be built switches re-chunking off. */
    method Merge(messages: seq<Option<Message>>, faults: Faults) returns (message: Option<Message>)
      modifies this`on
      ensures message == MergedOrKept(Present(messages), faults)
      ensures on == (old(on) && !Fails(Present(messages), faults))
    {
      if Fails(Present(messages), faults) {
        SwitchOff();
      }
      message := MergedOrKept(Present(messages), faults);
    }

    /** The wrapped `parse_delta`. */
    method ParseDelta<P>(parser: Parser<P>, p: P, delta: Delta, faults: Faults)
      returns (after: P, message: Option<Message>)
      modifies this
      ensures (Requested(after), message) == Delivered(setup, parser, old(Requested(p)), delta, faults)
    {
      var subs: Option<seq<Sub>> := None;
      if on {
        subs := MakePlan(delta.text, delta.ids, delta.finished);
      }
      ghost var plan := PlanFor(setup, old(Requested(p)).stream, delta);
      var given := if subs.None? then [delta] else SubDeltas(subs.value, delta.finished);
      assert given == Fed(plan, delta);
      var results: seq<Option<Message>>;
      after, results := ParseInOrder(parser, p, given);
      if subs.None? {
        WholeMessage(parser, p, delta, faults);
        message := results[0];
      } else {
        message := Merge(results, faults);
      }
      if on {
        Observe(message);
      }
    }
  }

  /** A delta that goes whole has the one message the parser gives it. */
  lemma WholeMessage<P>(parser: Parser<P>, p: P, delta: Delta, faults: Faults)
    ensures var messages := Parse(parser, p, [delta]).1;
      |messages| == 1 && !Fails(Present(messages), faults) && MergedOrKept(Present(messages), faults) == messages[0]
  {
    var messages := Parse(parser, p, [delta]).1;
    assert [delta][..0] == [] && messages[..0] == [];
  }

  /** The parser on deltas, one after the other. */
  method ParseInOrder<P>(parser: Parser<P>, p: P, deltas: seq<Delta>) returns (after: P, results: seq<Option<Message>>)
    ensures (after, results) == Parse(parser, p, deltas)
  {
    after, results := p, [];
    for i := 0 to |deltas|
      invariant (after, results) == Parse(parser, p, deltas[..i])
    {
      assert deltas[..i + 1][..i] == deltas[..i];
      var parsed := parser(after, deltas[i].text, deltas[i].ids, deltas[i].finished);
      after, results := parsed.0, results + [parsed.1];
    }
    assert deltas[..|deltas|] == deltas;
  }

  lemma PiecesStep<D>(setup: Setup<D>, s: State<D>, ids: seq<int>, i: nat, now: State<D>, pieces: seq<string>)
    requires i < |ids| && PiecesOf(setup, s, ids, i) == Ok((now, pieces))
    ensures PiecesOf(setup, s, ids, i + 1) ==
            if StepOf(setup, now, ids[i]).Raised? then Raised
            else Ok((StepOf(setup, now, ids[i]).value.0, pieces + [StepOf(setup, now, ids[i]).value.1]))
  {
  }

  lemma {:induction false} PiecesFail<D>(setup: Setup<D>, s: State<D>, ids: seq<int>, i: nat, n: nat)
    requires i <= n <= |ids| && PiecesOf(setup, s, ids, i).Raised?
    ensures PiecesOf(setup, s, ids, n).Raised?
    decreases n
  {
    if i < n {
      PiecesFail(setup, s, ids, i, n - 1);
    }
  }
}
