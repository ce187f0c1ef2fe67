/** Streams against rounds, and rounds against records (scripts/ci/acceptance_report.py, lines 339-420 and 448-499). */
module AcceptanceReport {
  import opened HeadFold
  import opened Results

  function Sum(values: seq<nat>): nat {
    if values == [] then 0 else Sum(values[..|values| - 1]) + values[|values| - 1]
  }

  // ----- stream_agreement

  /** Sum of the first `i` values. */
  function Edge(values: seq<nat>, i: nat): nat
    requires i <= |values|
  {
    Sum(values[..i])
  }

  lemma EdgeNext(values: seq<nat>, i: nat)
    requires i < |values|
    ensures Edge(values, i + 1) == Edge(values, i) + values[i]
  {
    assert values[..i + 1][..i] == values[..i];
  }

  lemma EdgeEnds(values: seq<nat>)
    ensures Edge(values, 0) == 0 && Edge(values, |values|) == Sum(values)
  {
    assert values[..0] == [] && values[..|values|] == values;
  }

  datatype Verdict = ExactRounds | Coalesced | Disagree | OneChunkPerBlock | OtherChunks | NoData

  /** A stream's tokens per chunk, the first chunk holding the seed, or else only its number of chunks. */
  datatype Stream = Stream(chunkTokens: Option<seq<nat>>, chunks: Option<nat>)

  function VerdictOf(stream: Stream, committed: seq<nat>): Verdict {
    if stream.chunkTokens.None? || stream.chunkTokens.value == [] then
      if stream.chunks.None? || committed == [] then NoData
      else if stream.chunks.value == |committed| + 1 then OneChunkPerBlock else OtherChunks
    else
      var deltas := stream.chunkTokens.value;
      if deltas == [1] + committed then ExactRounds
      else if Sum(deltas) == Sum(committed) + 1 && EdgesAreRounds(deltas, committed) then Coalesced
      else Disagree
  }

  /** Every chunk ends, less the seed, where a round ends or before the first. */
  predicate EdgesAreRounds(deltas: seq<nat>, committed: seq<nat>) {
    forall i :: 1 <= i <= |deltas| ==> EdgeIsRound(Edge(deltas, i) - 1, committed)
  }

  predicate EdgeIsRound(edge: int, committed: seq<nat>) {
    exists k :: 0 <= k <= |committed| && Edge(committed, k) == edge
  }

  /** `_cumulative`. */
  method Cumulative(values: seq<nat>) returns (edges: seq<int>)
    ensures |edges| == |values| && forall i :: 1 <= i <= |values| ==> edges[i - 1] == Edge(values, i)
  {
    var total := 0;
    edges := [];
    EdgeEnds(values);
    for i := 0 to |values|
      invariant total == Edge(values, i) && |edges| == i
      invariant forall j :: 1 <= j <= i ==> edges[j - 1] == Edge(values, j)
    {
      EdgeNext(values, i);
      total := total + values[i];
      edges := edges + [total];
    }
  }

  method StreamAgreement(stream: Stream, committed: seq<nat>) returns (verdict: Verdict)
    ensures verdict == VerdictOf(stream, committed)
  {
    if stream.chunkTokens.None? || stream.chunkTokens.value == [] {
      if stream.chunks.None? || committed == [] {
        return NoData;
      }
      return if stream.chunks.value == |committed| + 1 then OneChunkPerBlock else OtherChunks;
    }
    var deltas := stream.chunkTokens.value;
    if deltas == [1] + committed {
      return ExactRounds;
    }
    var within := EdgesWithin(deltas, committed);
    verdict := if within then Coalesced else Disagree;
  }

  /** The chunk edges, less the seed, are round edges, and the last of both is the same. */
  method EdgesWithin(deltas: seq<nat>, committed: seq<nat>) returns (within: bool)
    requires deltas != []
    ensures within == (Sum(deltas) == Sum(committed) + 1 && EdgesAreRounds(deltas, committed))
  {
    var chunkEdges := Cumulative(deltas);
    var rounds := Cumulative(committed);
    var roundEdges := [0] + rounds;
    EdgeEnds(deltas);
    EdgeEnds(committed);
    assert forall k :: 0 <= k <= |committed| ==> roundEdges[k] == Edge(committed, k);
    if chunkEdges[|chunkEdges| - 1] - 1 != roundEdges[|roundEdges| - 1] {
      return false;
    }
    for i := 1 to |chunkEdges| + 1
      invariant forall j :: 1 <= j < i ==> EdgeIsRound(Edge(deltas, j) - 1, committed)
    {
      var edge := chunkEdges[i - 1] - 1;
      assert edge == Edge(deltas, i) - 1;
      EdgeListed(edge, committed, roundEdges);
      if edge !in roundEdges {
        return false;
      }
    }
    within := true;
  }

  lemma EdgeListed(edge: int, committed: seq<nat>, roundEdges: seq<int>)
    requires |roundEdges| == |committed| + 1
    requires forall k :: 0 <= k <= |committed| ==> roundEdges[k] == Edge(committed, k)
    ensures EdgeIsRound(edge, committed) <==> edge in roundEdges
  {
    if EdgeIsRound(edge, committed) {
      var k :| 0 <= k <= |committed| && Edge(committed, k) == edge;
      assert roundEdges[k] == edge;
    }
    if edge in roundEdges {
      var k :| 0 <= k < |roundEdges| && roundEdges[k] == edge;
      assert Edge(committed, k) == edge;
    }
  }

  // ----- Coarsenings

  /**
   * The chunks are the rounds grouped: consecutive groups of rounds, of which only the first, which has the seed, may
   * be empty.
   */
  ghost predicate Coarsens(deltas: seq<nat>, committed: seq<nat>) {
    exists groups: seq<seq<nat>> :: Groups(deltas, committed, groups)
  }

  predicate Groups(deltas: seq<nat>, committed: seq<nat>, groups: seq<seq<nat>>) {
    && |groups| == |deltas| > 0 && Flat(groups) == committed
    && deltas[0] == 1 + Sum(groups[0])
    && forall i :: 1 <= i < |groups| ==> groups[i] != [] && deltas[i] == Sum(groups[i])
  }

  /** The seed is the first chunk, and every round a chunk of its own after it. */
  ghost predicate RoundByRound(deltas: seq<nat>, committed: seq<nat>) {
    exists groups: seq<seq<nat>> :: Groups(deltas, committed, groups) && OneByOne(groups)
  }

  predicate OneByOne(groups: seq<seq<nat>>) {
    groups != [] && groups[0] == [] && forall i :: 1 <= i < |groups| ==> |groups[i]| == 1
  }

  predicate Positive(values: seq<nat>) { forall i :: 0 <= i < |values| ==> values[i] > 0 }

  lemma {:induction false} SumConcat(a: seq<nat>, b: seq<nat>)
    ensures Sum(a + b) == Sum(a) + Sum(b)
  {
    if b == [] {
      assert a + b == a;
    } else {
      SumConcat(a, b[..|b| - 1]);
      assert (a + b)[..|a + b| - 1] == a + b[..|b| - 1];
    }
  }

  /** Grouped rounds: every chunk ends at a round's end. */
  lemma {:induction false} GroupedEdges(deltas: seq<nat>, committed: seq<nat>, groups: seq<seq<nat>>, i: nat)
    requires Groups(deltas, committed, groups) && 0 < i <= |deltas|
    ensures Edge(deltas, i) == 1 + Sum(Flat(groups[..i]))
  {
    EdgeNext(deltas, i - 1);
    FlatExtend(groups, i - 1);
    if i == 1 {
      assert groups[..0] == [];
      EdgeEnds(deltas);
      assert Flat(groups[..1]) == groups[0];
    } else {
      GroupedEdges(deltas, committed, groups, i - 1);
      SumConcat(Flat(groups[..i - 1]), groups[i - 1]);
    }
  }

  lemma GroupsArePrefixes(committed: seq<nat>, groups: seq<seq<nat>>, i: nat)
    requires Flat(groups) == committed && i <= |groups|
    ensures |Flat(groups[..i])| <= |committed| && committed[..|Flat(groups[..i])|] == Flat(groups[..i])
  {
    assert groups == groups[..i] + groups[i..];
    FlatConcat(groups[..i], groups[i..]);
  }

  lemma GroupedIsSubset(deltas: seq<nat>, committed: seq<nat>, groups: seq<seq<nat>>)
    requires Groups(deltas, committed, groups)
    ensures Sum(deltas) == Sum(committed) + 1 && EdgesAreRounds(deltas, committed)
  {
    forall i | 1 <= i <= |deltas| ensures EdgeIsRound(Edge(deltas, i) - 1, committed) {
      GroupedEdges(deltas, committed, groups, i);
      GroupsArePrefixes(committed, groups, i);
      assert Edge(committed, |Flat(groups[..i])|) == Edge(deltas, i) - 1;
    }
    GroupedEdges(deltas, committed, groups, |deltas|);
    EdgeEnds(deltas);
    assert groups[..|groups|] == groups;
  }

  lemma {:induction false} RoundEdgesRise(committed: seq<nat>, j: nat, k: nat)
    requires Positive(committed) && j <= k <= |committed|
    ensures Edge(committed, j) <= Edge(committed, k) && (j < k ==> Edge(committed, j) < Edge(committed, k))
  {
    if j < k {
      RoundEdgesRise(committed, j, k - 1);
      EdgeNext(committed, k - 1);
    }
  }

  lemma SumOfSlice(committed: seq<nat>, j: nat, k: nat)
    requires j <= k <= |committed|
    ensures Sum(committed[j..k]) == Edge(committed, k) - Edge(committed, j)
  {
    assert committed[..k] == committed[..j] + committed[j..k];
    SumConcat(committed[..j], committed[j..k]);
  }

  /** The rounds of the first `i` chunks, grouped, when every chunk ends where a round does. */
  lemma {:induction false} GroupsFromEdges(deltas: seq<nat>, committed: seq<nat>, i: nat)
    returns (groups: seq<seq<nat>>, k: nat)
    requires Positive(deltas) && Positive(committed) && EdgesAreRounds(deltas, committed) && 0 < i <= |deltas|
    ensures k <= |committed| && Edge(committed, k) == Edge(deltas, i) - 1
    ensures Groups(deltas[..i], committed[..k], groups)
  {
    assert EdgeIsRound(Edge(deltas, i) - 1, committed);
    k :| 0 <= k <= |committed| && Edge(committed, k) == Edge(deltas, i) - 1;
    EdgeNext(deltas, i - 1);
    if i == 1 {
      groups := [committed[..k]];
      EdgeEnds(deltas);
      assert Flat(groups) == committed[..k];
    } else {
      var front, j := GroupsFromEdges(deltas, committed, i - 1);
      if k <= j {
        RoundEdgesRise(committed, k, j);
      }
      SumOfSlice(committed, j, k);
      groups := front + [committed[j..k]];
      AddGroup(deltas, committed, i, front, j, k);
    }
  }

  lemma AddGroup(deltas: seq<nat>, committed: seq<nat>, i: nat, front: seq<seq<nat>>, j: nat, k: nat)
    requires 1 < i <= |deltas| && j < k <= |committed| && Groups(deltas[..i - 1], committed[..j], front)
    requires deltas[i - 1] == Sum(committed[j..k])
    ensures Groups(deltas[..i], committed[..k], front + [committed[j..k]])
  {
    FlatAppend(front, committed[j..k]);
    assert committed[..k] == committed[..j] + committed[j..k];
  }

  /**
   * For positive chunk and round sizes, a stream is judged exact or coalesced exactly when its chunks are the rounds
   * grouped, and exact exactly when every round is a chunk of its own.
   */
  lemma AgreementIsCoarsening(deltas: seq<nat>, committed: seq<nat>, chunks: Option<nat>)
    requires deltas != [] && Positive(deltas) && Positive(committed)
    ensures var verdict := VerdictOf(Stream(Some(deltas), chunks), committed);
      && (verdict in {ExactRounds, Coalesced} <==> Coarsens(deltas, committed))
      && (verdict == ExactRounds <==> RoundByRound(deltas, committed))
  {
    if RoundByRound(deltas, committed) {
      var groups: seq<seq<nat>> :| Groups(deltas, committed, groups) && OneByOne(groups);
      OneByOneRounds(deltas, committed, groups);
    }
    if deltas == [1] + committed {
      var groups := Singletons(committed);
      assert Groups(deltas, committed, groups);
    } else {
      if Sum(deltas) == Sum(committed) + 1 && EdgesAreRounds(deltas, committed) {
        var groups, k := GroupsFromEdges(deltas, committed, |deltas|);
        assert deltas[..|deltas|] == deltas && committed[..|committed|] == committed;
        RoundEdgesRise(committed, k, |committed|);
        assert Groups(deltas, committed, groups);
      }
      if Coarsens(deltas, committed) {
        var groups: seq<seq<nat>> :| Groups(deltas, committed, groups);
        GroupedIsSubset(deltas, committed, groups);
      }
    }
  }

  lemma {:induction false} OneByOneRounds(deltas: seq<nat>, committed: seq<nat>, groups: seq<seq<nat>>)
    requires Groups(deltas, committed, groups) && OneByOne(groups)
    ensures deltas == [1] + committed
  {
    var n := |groups| - 1;
    var front, last := groups[..n], groups[n];
    assert groups == front + [last];
    FlatAppend(front, last);
    if n > 0 {
      OneByOneRounds(deltas[..n], Flat(front), front);
      assert last[..0] == [] && deltas[n] == Sum(last) == last[0];
      assert deltas == deltas[..n] + [deltas[n]] && last == [last[0]];
    } else {
      assert Flat(front) == [];
    }
  }

  /** One chunk per round groups the rounds one by one. */
  lemma {:induction false} Singletons(committed: seq<nat>) returns (groups: seq<seq<nat>>)
    ensures Groups([1] + committed, committed, groups) && OneByOne(groups)
  {
    if committed == [] {
      groups := [[]];
    } else {
      var n := |committed| - 1;
      var front := Singletons(committed[..n]);
      groups := front + [[committed[n]]];
      FlatAppend(front, [committed[n]]);
      assert committed == committed[..n] + [committed[n]];
      assert [committed[n]][..0] == [];
    }
  }

  /**
   * Without chunk sizes the number of chunks is all there is to compare: it is that of a stream with every round a
   * chunk of its own, or it is not, and without a number or without rounds there is no verdict.
   */
  lemma CountAgreement(stream: Stream, committed: seq<nat>)
    requires stream.chunkTokens.None? || stream.chunkTokens.value == []
    ensures var verdict := VerdictOf(stream, committed);
      && (verdict == NoData <==> stream.chunks.None? || committed == [])
      && (verdict == OneChunkPerBlock <==>
            verdict != NoData && exists deltas :: RoundByRound(deltas, committed) && |deltas| == stream.chunks.value)
      && (verdict != NoData && verdict != OneChunkPerBlock ==> verdict == OtherChunks)
  {
    var groups := Singletons(committed);
    assert RoundByRound([1] + committed, committed);
    if deltas :| RoundByRound(deltas, committed) && stream.chunks.Some? && |deltas| == stream.chunks.value {
      var grouped: seq<seq<nat>> :| Groups(deltas, committed, grouped) && OneByOne(grouped);
      OneByOneRounds(deltas, committed, grouped);
    }
  }

  // ----- round_split

  datatype Block = Block(rows: nat, committed: nat, packed: bool)

  /** A decode step of the log: its live users and its rows. */
  datatype Step = Step(live: nat, total: nat)

  /** The `k`-th blocks of the records that have one. */
  function PresentAt(records: seq<seq<Block>>, k: nat): seq<Block> {
    if records == [] then []
    else
      var last := records[|records| - 1];
      PresentAt(records[..|records| - 1], k) + if |last| > k then [last[k]] else []
  }

  function SumBy(f: Block -> nat, blocks: seq<Block>): nat {
    if blocks == [] then 0 else SumBy(f, blocks[..|blocks| - 1]) + f(blocks[|blocks| - 1])
  }

  function RowsOf(block: Block): nat { block.rows }

  function CommittedOf(block: Block): nat { block.committed }

  function Rows(blocks: seq<Block>): nat { SumBy(RowsOf, blocks) }

  function Committed(blocks: seq<Block>): nat { SumBy(CommittedOf, blocks) }

  function Longest(records: seq<seq<Block>>): nat {
    if records == [] then 0
    else
      var before, last := Longest(records[..|records| - 1]), |records[|records| - 1]|;
      if before < last then last else before
  }

  /** The step's live count and rows are those of the records' next blocks. */
  predicate StepMatches(records: seq<seq<Block>>, steps: seq<Step>, k: nat)
    requires k < |steps|
  {
    |PresentAt(records, k)| == steps[k].live && Rows(PresentAt(records, k)) == steps[k].total
  }

  predicate Aligned(records: seq<seq<Block>>, steps: seq<Step>) {
    records != [] && (forall k :: 0 <= k < |steps| ==> StepMatches(records, steps, k)) && Longest(records) == |steps|
  }

  /** One step's contribution; its blocks are known only when aligned. */
  datatype Round = Round(live: nat, packed: Option<bool>, tokens: nat, rows: nat, users: nat)

  predicate AllPacked(blocks: seq<Block>) { forall i :: 0 <= i < |blocks| ==> blocks[i].packed }

  function RoundAt(records: seq<seq<Block>>, steps: seq<Step>, aligned: bool, k: nat): Round
    requires k < |steps|
  {
    if aligned then
      var present := PresentAt(records, k);
      Round(steps[k].live, Some(AllPacked(present)), Committed(present), Rows(present), steps[k].live)
    else Round(steps[k].live, None, 0, 0, 0)
  }

  function RoundsOf(records: seq<seq<Block>>, steps: seq<Step>, aligned: bool): (rounds: seq<Round>)
    ensures |rounds| == |steps|
    ensures forall k :: 0 <= k < |steps| ==> rounds[k] == RoundAt(records, steps, aligned, k)
  {
    seq(|steps|, (k: nat) requires k < |steps| => RoundAt(records, steps, aligned, k))
  }

  datatype Group = Group(live: nat, packed: Option<bool>, rounds: nat, tokens: nat, rows: nat, userRounds: nat)

  function Find(groups: seq<Group>, live: nat, packed: Option<bool>): (i: nat)
    ensures i <= |groups|
    ensures i < |groups| ==> groups[i].live == live && groups[i].packed == packed
    ensures forall j :: 0 <= j < i ==> groups[j].live != live || groups[j].packed != packed
  {
    if groups == [] then 0
    else if groups[0].live == live && groups[0].packed == packed then 0 else 1 + Find(groups[1..], live, packed)
  }

  function Counted(group: Group, round: Round): Group {
    group.(rounds := group.rounds + 1, tokens := group.tokens + round.tokens, rows := group.rows + round.rows,
           userRounds := group.userRounds + round.users)
  }

  function NewGroup(live: nat, packed: Option<bool>): Group { Group(live, packed, 0, 0, 0, 0) }

  /** `setdefault` and the additions of one step. */
  function Grouped(groups: seq<Group>, round: Round): seq<Group> {
    var i := Find(groups, round.live, round.packed);
    if i < |groups| then groups[i := Counted(groups[i], round)]
    else groups + [Counted(NewGroup(round.live, round.packed), round)]
  }

  function GroupsOf(rounds: seq<Round>, n: nat): seq<Group>
    requires n <= |rounds|
  {
    if n == 0 then [] else Grouped(GroupsOf(rounds, n - 1), rounds[n - 1])
  }

  /** The alignment loop, with its early exit. */
  method Align(records: seq<seq<Block>>, steps: seq<Step>) returns (aligned: bool)
    ensures aligned == Aligned(records, steps)
  {
    if records == [] {
      return false;
    }
    for k := 0 to |steps|
      invariant forall j :: 0 <= j < k ==> StepMatches(records, steps, j)
    {
      var present := PresentAt(records, k);
      if |present| != steps[k].live || Rows(present) != steps[k].total {
        assert !StepMatches(records, steps, k);
        return false;
      }
    }
    aligned := Longest(records) == |steps|;
  }

  /** `round_split`: without decode steps there is nothing to split. */
  method RoundSplit(records: seq<seq<Block>>, steps: seq<Step>) returns (r: Option<(bool, seq<Group>)>)
    ensures r.None? <==> steps == []
    ensures r.Some? ==> r.value.0 == Aligned(records, steps)
    ensures r.Some? ==> r.value.1 == GroupsOf(RoundsOf(records, steps, r.value.0), |steps|)
  {
    if steps == [] {
      return None;
    }
    var aligned := Align(records, steps);
    var groups: seq<Group> := [];
    for k := 0 to |steps|
      invariant groups == GroupsOf(RoundsOf(records, steps, aligned), k)
    {
      groups := Grouped(groups, RoundAt(records, steps, aligned, k));
    }
    r := Some((aligned, groups));
  }

  // ----- Conservation

  /** The rounds of one live count and packing, counted directly. */
  function KeyTotal(rounds: seq<Round>, n: nat, live: nat, packed: Option<bool>): Group
    requires n <= |rounds|
  {
    if n == 0 then NewGroup(live, packed)
    else
      var before := KeyTotal(rounds, n - 1, live, packed);
      if rounds[n - 1].live == live && rounds[n - 1].packed == packed then Counted(before, rounds[n - 1]) else before
  }

  predicate GroupHolds(rounds: seq<Round>, n: nat, group: Group)
    requires n <= |rounds|
  {
    group.rounds > 0 && group == KeyTotal(rounds, n, group.live, group.packed)
  }

  predicate DistinctGroups(groups: seq<Group>) {
    forall i, j :: 0 <= i < |groups| && 0 <= j < |groups| && i != j ==>
      groups[i].live != groups[j].live || groups[i].packed != groups[j].packed
  }

  lemma {:induction false} KeyOfGroup(rounds: seq<Round>, n: nat, live: nat, packed: Option<bool>)
    requires n <= |rounds|
    ensures KeyTotal(rounds, n, live, packed).live == live && KeyTotal(rounds, n, live, packed).packed == packed
  {
    if n > 0 {
      KeyOfGroup(rounds, n - 1, live, packed);
    }
  }

  /** Without a group of a key there was no round of it. */
  predicate KeyMissing(rounds: seq<Round>, n: nat, groups: seq<Group>, live: nat, packed: Option<bool>)
    requires n <= |rounds|
  {
    Find(groups, live, packed) == |groups| ==> KeyTotal(rounds, n, live, packed) == NewGroup(live, packed)
  }

  lemma {:induction false} MissingKeys(rounds: seq<Round>, n: nat, live: nat, packed: Option<bool>)
    requires n <= |rounds|
    ensures KeyMissing(rounds, n, GroupsOf(rounds, n), live, packed)
  {
    if n > 0 {
      MissingKeys(rounds, n - 1, live, packed);
      var before, after, round := GroupsOf(rounds, n - 1), GroupsOf(rounds, n), rounds[n - 1];
      var k := Find(before, round.live, round.packed);
      assert after[k].live == round.live && after[k].packed == round.packed;
      if round.live == live && round.packed == packed {
        assert Find(after, live, packed) <= k;
      } else {
        FindKept(before, after, live, packed);
      }
    }
  }

  /** Every group holds exactly the rounds of its live count and packing. */
  lemma {:induction false} GroupsHoldTheirRounds(rounds: seq<Round>, n: nat)
    requires n <= |rounds|
    ensures DistinctGroups(GroupsOf(rounds, n))
    ensures forall i :: 0 <= i < |GroupsOf(rounds, n)| ==> GroupHolds(rounds, n, GroupsOf(rounds, n)[i])
  {
    if n > 0 {
      GroupsHoldTheirRounds(rounds, n - 1);
      MissingKeys(rounds, n - 1, rounds[n - 1].live, rounds[n - 1].packed);
      GroupsStillHold(rounds, n - 1, GroupsOf(rounds, n - 1), GroupsOf(rounds, n));
    }
  }

  lemma GroupsStillHold(rounds: seq<Round>, n: nat, before: seq<Group>, after: seq<Group>)
    requires n < |rounds| && after == Grouped(before, rounds[n]) && DistinctGroups(before)
    requires forall i :: 0 <= i < |before| ==> GroupHolds(rounds, n, before[i])
    requires KeyMissing(rounds, n, before, rounds[n].live, rounds[n].packed)
    ensures DistinctGroups(after) && forall i :: 0 <= i < |after| ==> GroupHolds(rounds, n + 1, after[i])
  {
    forall i | 0 <= i < |after| ensures GroupHolds(rounds, n + 1, after[i]) {
      if i < |before| {
        assert GroupHolds(rounds, n, before[i]);
      }
    }
  }

  lemma {:induction false} FindKept(before: seq<Group>, after: seq<Group>, live: nat, packed: Option<bool>)
    requires |before| <= |after|
    requires forall i :: 0 <= i < |before| ==> after[i].live == before[i].live && after[i].packed == before[i].packed
    ensures Find(after, live, packed) == |after| ==> Find(before, live, packed) == |before|
  {
  }

  function TotalBy(f: Group -> nat, groups: seq<Group>): nat {
    if groups == [] then 0 else TotalBy(f, groups[..|groups| - 1]) + f(groups[|groups| - 1])
  }

  lemma {:induction false} TotalUpdated(f: Group -> nat, groups: seq<Group>, i: nat, group: Group)
    requires i < |groups|
    ensures TotalBy(f, groups[i := group]) + f(groups[i]) == TotalBy(f, groups) + f(group)
  {
    var n := |groups| - 1;
    if i == n {
      assert groups[i := group][..n] == groups[..n];
    } else {
      TotalUpdated(f, groups[..n], i, group);
      assert groups[i := group][..n] == groups[..n][i := group];
    }
  }

  function RoundsIn(group: Group): nat { group.rounds }

  function TokensIn(group: Group): nat { group.tokens }

  function RowsIn(group: Group): nat { group.rows }

  function UserRoundsIn(group: Group): nat { group.userRounds }

  /** What the groups add up to. */
  function Totals(groups: seq<Group>): (nat, nat, nat, nat) {
    (TotalBy(RoundsIn, groups), TotalBy(TokensIn, groups), TotalBy(RowsIn, groups), TotalBy(UserRoundsIn, groups))
  }

  function RoundTokens(rounds: seq<Round>, n: nat): nat
    requires n <= |rounds|
  {
    if n == 0 then 0 else RoundTokens(rounds, n - 1) + rounds[n - 1].tokens
  }

  function RoundRows(rounds: seq<Round>, n: nat): nat
    requires n <= |rounds|
  {
    if n == 0 then 0 else RoundRows(rounds, n - 1) + rounds[n - 1].rows
  }

  function RoundUsers(rounds: seq<Round>, n: nat): nat
    requires n <= |rounds|
  {
    if n == 0 then 0 else RoundUsers(rounds, n - 1) + rounds[n - 1].users
  }

  lemma {:induction false} GroupsAddUp(rounds: seq<Round>, n: nat)
    requires n <= |rounds|
    ensures Totals(GroupsOf(rounds, n)) == (n, RoundTokens(rounds, n), RoundRows(rounds, n), RoundUsers(rounds, n))
  {
    if n > 0 {
      GroupsAddUp(rounds, n - 1);
      GroupedAddsRound(GroupsOf(rounds, n - 1), rounds[n - 1]);
    }
  }

  lemma GroupedAddsRound(groups: seq<Group>, round: Round)
    ensures var (rounds, tokens, rows, users) := Totals(groups);
      Totals(Grouped(groups, round)) == (rounds + 1, tokens + round.tokens, rows + round.rows, users + round.users)
  {
    var i := Find(groups, round.live, round.packed);
    if i < |groups| {
      TotalUpdated(RoundsIn, groups, i, Counted(groups[i], round));
      TotalUpdated(TokensIn, groups, i, Counted(groups[i], round));
      TotalUpdated(RowsIn, groups, i, Counted(groups[i], round));
      TotalUpdated(UserRoundsIn, groups, i, Counted(groups[i], round));
    } else {
      var added := Counted(NewGroup(round.live, round.packed), round);
      assert (groups + [added])[..|groups|] == groups;
    }
  }

  /** A measure of each of the first `n` columns of blocks. */
  function ColumnSums(f: Block -> nat, records: seq<seq<Block>>, n: nat): (sums: seq<nat>)
    ensures |sums| == n && forall k :: 0 <= k < n ==> sums[k] == SumBy(f, PresentAt(records, k))
  {
    seq(n, (k: nat) => SumBy(f, PresentAt(records, k)))
  }

  /** The measure summed column by column. */
  function ByColumns(f: Block -> nat, records: seq<seq<Block>>, n: nat): nat {
    Sum(ColumnSums(f, records, n))
  }

  /** The same measure summed record by record. */
  function ByRecords(f: Block -> nat, records: seq<seq<Block>>): nat {
    if records == [] then 0 else ByRecords(f, records[..|records| - 1]) + SumBy(f, records[|records| - 1])
  }

  /** What the last record adds to column `k`. */
  function Share(f: Block -> nat, record: seq<Block>, k: nat): nat { if |record| > k then f(record[k]) else 0 }

  lemma ColumnShare(f: Block -> nat, front: seq<seq<Block>>, last: seq<Block>, k: nat)
    ensures SumBy(f, PresentAt(front + [last], k)) == SumBy(f, PresentAt(front, k)) + Share(f, last, k)
  {
    var records, before := front + [last], PresentAt(front, k);
    assert records[..|records| - 1] == front;
    if |last| > k {
      assert (before + [last[k]])[..|before|] == before;
    } else {
      assert PresentAt(records, k) == before;
    }
  }

  /** What a record adds to each of the first `n` columns. */
  function Shares(f: Block -> nat, record: seq<Block>, n: nat): (shares: seq<nat>)
    ensures |shares| == n && forall k :: 0 <= k < n ==> shares[k] == Share(f, record, k)
  {
    seq(n, (k: nat) => Share(f, record, k))
  }

  /** A record adds each of its blocks to one column. */
  lemma {:induction false} RecordShares(f: Block -> nat, record: seq<Block>, n: nat)
    ensures Sum(Shares(f, record, n)) == SumBy(f, if n <= |record| then record[..n] else record)
  {
    if n == 0 {
      assert record[..0] == [];
    } else {
      RecordShares(f, record, n - 1);
      assert Shares(f, record, n)[..n - 1] == Shares(f, record, n - 1);
      if n <= |record| {
        assert record[..n][..n - 1] == record[..n - 1];
      } else {
        assert record[..|record|] == record;
      }
    }
  }

  lemma {:induction false} SumAdds(a: seq<nat>, b: seq<nat>, c: seq<nat>)
    requires |a| == |b| == |c| && forall k :: 0 <= k < |c| ==> c[k] == a[k] + b[k]
    ensures Sum(c) == Sum(a) + Sum(b)
  {
    if c != [] {
      SumAdds(a[..|a| - 1], b[..|b| - 1], c[..|c| - 1]);
    }
  }

  /** The last record adds its blocks to the columns they stand in. */
  lemma LastRecordInColumns(f: Block -> nat, front: seq<seq<Block>>, last: seq<Block>, n: nat)
    ensures ByColumns(f, front + [last], n) == ByColumns(f, front, n) + Sum(Shares(f, last, n))
  {
    forall k | 0 <= k < n
      ensures ColumnSums(f, front + [last], n)[k] == ColumnSums(f, front, n)[k] + Shares(f, last, n)[k]
    {
      ColumnShare(f, front, last, k);
    }
    SumAdds(ColumnSums(f, front, n), Shares(f, last, n), ColumnSums(f, front + [last], n));
  }

  /** Ragged records: every block is in exactly one column. */
  lemma {:induction false} ColumnsAreRecords(f: Block -> nat, records: seq<seq<Block>>, n: nat)
    requires n >= Longest(records)
    ensures ByColumns(f, records, n) == ByRecords(f, records)
  {
    if records == [] {
      EmptyColumns(f, n);
    } else {
      var front, last := records[..|records| - 1], records[|records| - 1];
      assert records == front + [last];
      LastRecordInColumns(f, front, last, n);
      ColumnsAreRecords(f, front, n);
      WholeShares(f, last, n);
    }
  }

  lemma WholeShares(f: Block -> nat, record: seq<Block>, n: nat)
    requires n >= |record|
    ensures Sum(Shares(f, record, n)) == SumBy(f, record)
  {
    RecordShares(f, record, n);
    assert record[..|record|] == record;
  }

  lemma {:induction false} EmptyColumns(f: Block -> nat, n: nat)
    ensures ByColumns(f, [], n) == 0
  {
    if n > 0 {
      EmptyColumns(f, n - 1);
      NextColumn(f, [], n - 1);
    }
  }

  lemma NextColumn(f: Block -> nat, records: seq<seq<Block>>, k: nat)
    ensures ByColumns(f, records, k + 1) == ByColumns(f, records, k) + SumBy(f, PresentAt(records, k))
  {
    assert ColumnSums(f, records, k + 1)[..k] == ColumnSums(f, records, k);
  }

  lemma RoundsAreColumns(records: seq<seq<Block>>, steps: seq<Step>)
    requires forall k :: 0 <= k < |steps| ==> StepMatches(records, steps, k)
    ensures var rounds := RoundsOf(records, steps, true);
      && RoundTokens(rounds, |steps|) == ByColumns(CommittedOf, records, |steps|)
      && RoundRows(rounds, |steps|) == ByColumns(RowsOf, records, |steps|)
      && RoundUsers(rounds, |steps|) == ByColumns(OneOf, records, |steps|)
  {
    var rounds := RoundsOf(records, steps, true);
    forall k | 0 <= k < |rounds| ensures CountsColumn(records, rounds[k], k) {
      RoundCounts(records, steps, k);
    }
    TokensAreColumns(records, rounds, |steps|);
    RowsAreColumns(records, rounds, |steps|);
    UsersAreColumns(records, rounds, |steps|);
  }

  /** One for each block: summed, the number of blocks. */
  function OneOf(block: Block): nat { 1 }

  lemma {:induction false} OnesCount(blocks: seq<Block>)
    ensures SumBy(OneOf, blocks) == |blocks|
  {
    if blocks != [] {
      OnesCount(blocks[..|blocks| - 1]);
    }
  }

  /** The round's tokens, rows and users are those of column `k`. */
  predicate CountsColumn(records: seq<seq<Block>>, round: Round, k: nat) {
    && round.tokens == SumBy(CommittedOf, PresentAt(records, k)) && round.rows == SumBy(RowsOf, PresentAt(records, k))
    && round.users == SumBy(OneOf, PresentAt(records, k))
  }

  lemma {:induction false} UsersAreColumns(records: seq<seq<Block>>, rounds: seq<Round>, n: nat)
    requires n <= |rounds| && forall k :: 0 <= k < |rounds| ==> CountsColumn(records, rounds[k], k)
    ensures RoundUsers(rounds, n) == ByColumns(OneOf, records, n)
  {
    if n > 0 {
      UsersAreColumns(records, rounds, n - 1);
      NextColumn(OneOf, records, n - 1);
      assert CountsColumn(records, rounds[n - 1], n - 1);
    }
  }

  lemma {:induction false} TokensAreColumns(records: seq<seq<Block>>, rounds: seq<Round>, n: nat)
    requires n <= |rounds| && forall k :: 0 <= k < |rounds| ==> CountsColumn(records, rounds[k], k)
    ensures RoundTokens(rounds, n) == ByColumns(CommittedOf, records, n)
  {
    if n > 0 {
      TokensAreColumns(records, rounds, n - 1);
      NextColumn(CommittedOf, records, n - 1);
      assert CountsColumn(records, rounds[n - 1], n - 1);
    }
  }

  lemma {:induction false} RowsAreColumns(records: seq<seq<Block>>, rounds: seq<Round>, n: nat)
    requires n <= |rounds| && forall k :: 0 <= k < |rounds| ==> CountsColumn(records, rounds[k], k)
    ensures RoundRows(rounds, n) == ByColumns(RowsOf, records, n)
  {
    if n > 0 {
      RowsAreColumns(records, rounds, n - 1);
      NextColumn(RowsOf, records, n - 1);
      assert CountsColumn(records, rounds[n - 1], n - 1);
    }
  }

  /** A round counts the tokens, rows and users of its column. */
  lemma RoundCounts(records: seq<seq<Block>>, steps: seq<Step>, k: nat)
    requires k < |steps| && StepMatches(records, steps, k)
    ensures CountsColumn(records, RoundsOf(records, steps, true)[k], k)
  {
    OnesCount(PresentAt(records, k));
  }

  lemma {:induction false} NothingCounted(records: seq<seq<Block>>, steps: seq<Step>, n: nat)
    requires n <= |steps|
    ensures var rounds := RoundsOf(records, steps, false);
      RoundTokens(rounds, n) == RoundRows(rounds, n) == RoundUsers(rounds, n) == 0
  {
    if n > 0 {
      NothingCounted(records, steps, n - 1);
    }
  }

  /**
   * When the split is aligned its groups hold every decode step once, and their tokens, rows and user rounds are those
   * of all blocks of all records, however ragged; when it is not, they still hold every decode step, and nothing else.
   */
  lemma SplitConserves(records: seq<seq<Block>>, steps: seq<Step>)
    ensures var aligned := Aligned(records, steps);
      var (rounds, tokens, rows, users) := Totals(GroupsOf(RoundsOf(records, steps, aligned), |steps|));
      && rounds == |steps|
      && tokens == (if aligned then ByRecords(CommittedOf, records) else 0)
      && rows == (if aligned then ByRecords(RowsOf, records) else 0)
      && users == (if aligned then ByRecords(OneOf, records) else 0)
  {
    var aligned := Aligned(records, steps);
    GroupsAddUp(RoundsOf(records, steps, aligned), |steps|);
    if aligned {
      RoundsAreColumns(records, steps);
      ColumnsAreRecords(CommittedOf, records, |steps|);
      ColumnsAreRecords(RowsOf, records, |steps|);
      ColumnsAreRecords(OneOf, records, |steps|);
    } else {
      NothingCounted(records, steps, |steps|);
    }
  }

  // ----- When a log and its records are aligned

  /** The records with a block at `k`. */
  function Having(records: seq<seq<Block>>, k: nat): set<nat> {
    set i: nat | i < |records| && |records[i]| > k
  }

  /** The rows of the records' blocks at `k`. */
  function RowsHeld(records: seq<seq<Block>>, k: nat): nat {
    if records == [] then 0
    else
      var last := records[|records| - 1];
      RowsHeld(records[..|records| - 1], k) + if |last| > k then last[k].rows else 0
  }

  lemma HavingNext(front: seq<seq<Block>>, last: seq<Block>, k: nat)
    ensures |Having(front + [last], k)| == |Having(front, k)| + if |last| > k then 1 else 0
  {
    var n: nat := |front|;
    assert Having(front + [last], k) == Having(front, k) + if |last| > k then {n} else {};
  }

  lemma PresentNext(front: seq<seq<Block>>, last: seq<Block>, k: nat)
    ensures PresentAt(front + [last], k) == PresentAt(front, k) + if |last| > k then [last[k]] else []
    ensures Rows(PresentAt(front + [last], k)) == Rows(PresentAt(front, k)) + if |last| > k then last[k].rows else 0
  {
    assert (front + [last])[..|front|] == front;
    var before := PresentAt(front, k);
    if |last| > k {
      assert (before + [last[k]])[..|before|] == before;
    } else {
      assert before + [] == before;
    }
  }

  lemma {:induction false} PresentHeld(records: seq<seq<Block>>, k: nat)
    ensures |PresentAt(records, k)| == |Having(records, k)| && Rows(PresentAt(records, k)) == RowsHeld(records, k)
  {
    if records != [] {
      var front, last := records[..|records| - 1], records[|records| - 1];
      PresentHeld(front, k);
      HavingNext(front, last, k);
      PresentNext(front, last, k);
      assert records == front + [last];
    }
  }

  /** The longest record is at least as long as any, and as long as one of them. */
  lemma {:induction false} LongestIs(records: seq<seq<Block>>)
    ensures forall i :: 0 <= i < |records| ==> |records[i]| <= Longest(records)
    ensures records != [] ==> exists i :: 0 <= i < |records| && |records[i]| == Longest(records)
  {
    if records != [] {
      var front, n := records[..|records| - 1], |records| - 1;
      LongestIs(front);
      forall i | 0 <= i < |records| ensures |records[i]| <= Longest(records) {
        assert i < n ==> front[i] == records[i];
      }
      if front != [] && Longest(records) != |records[n]| {
        var i :| 0 <= i < |front| && |front[i]| == Longest(front);
        assert front[i] == records[i];
      }
    }
  }

  /** A step's live users are the records that have a block there, and its rows the rows of those blocks. */
  predicate StepSays(records: seq<seq<Block>>, step: Step, k: nat) {
    step.live == |Having(records, k)| && step.total == RowsHeld(records, k)
  }

  /**
   * The log is aligned with its records exactly when there are records, each step has the users and the rows of the
   * records' blocks there, no record has more blocks than there are steps, and one has as many.
   */
  lemma AlignedExactlyWhen(records: seq<seq<Block>>, steps: seq<Step>)
    ensures Aligned(records, steps) <==>
      && records != [] && (forall k :: 0 <= k < |steps| ==> StepSays(records, steps[k], k))
      && (forall i :: 0 <= i < |records| ==> |records[i]| <= |steps|)
      && exists i :: 0 <= i < |records| && |records[i]| == |steps|
  {
    LongestIs(records);
    forall k | 0 <= k < |steps| ensures StepMatches(records, steps, k) <==> StepSays(records, steps[k], k) {
      PresentHeld(records, k);
    }
  }

  // ----- Which steps a group holds

  /** All blocks that records have at `k` are packed. */
  predicate ColumnPacked(records: seq<seq<Block>>, k: nat) {
    forall i :: 0 <= i < |records| && |records[i]| > k ==> records[i][k].packed
  }

  /** Step `k` has this live count, and this packing when the blocks of the step are known. */
  predicate InGroup(records: seq<seq<Block>>, steps: seq<Step>, aligned: bool, k: nat, live: nat,
                    packed: Option<bool>)
    requires k < |steps|
  {
    && steps[k].live == live
    && match packed
       case None => !aligned
       case Some(all) => aligned && (all <==> ColumnPacked(records, k))
  }

  /** How many of the first `n` steps are in a group, and the tokens their blocks committed. */
  function StepsIn(records: seq<seq<Block>>, steps: seq<Step>, aligned: bool, n: nat, live: nat,
                   packed: Option<bool>): (nat, nat)
    requires n <= |steps|
  {
    if n == 0 then (0, 0)
    else
      var (count, tokens) := StepsIn(records, steps, aligned, n - 1, live, packed);
      if !InGroup(records, steps, aligned, n - 1, live, packed) then (count, tokens)
      else (count + 1, tokens + if aligned then SumBy(CommittedOf, PresentAt(records, n - 1)) else 0)
  }

  lemma {:induction false} PresentPacked(records: seq<seq<Block>>, k: nat)
    ensures AllPacked(PresentAt(records, k)) <==> ColumnPacked(records, k)
  {
    if records != [] {
      var front, last := records[..|records| - 1], records[|records| - 1];
      var more := if |last| > k then [last[k]] else [];
      PresentPacked(front, k);
      PackedExtends(PresentAt(front, k), more);
      assert AllPacked(more) <==> (|last| > k ==> last[k].packed) by {
        if |last| > k {
          assert more[0] == last[k];
        }
      }
      ColumnExtends(front, last, k);
      assert records == front + [last];
    }
  }

  lemma ColumnExtends(front: seq<seq<Block>>, last: seq<Block>, k: nat)
    ensures ColumnPacked(front + [last], k) <==> ColumnPacked(front, k) && (|last| > k ==> last[k].packed)
  {
    var records := front + [last];
    assert records[|front|] == last;
    if ColumnPacked(records, k) {
      forall i | 0 <= i < |front| && |front[i]| > k ensures front[i][k].packed {
        assert records[i] == front[i];
      }
    }
  }

  lemma PackedExtends(before: seq<Block>, more: seq<Block>)
    ensures AllPacked(before + more) <==> AllPacked(before) && AllPacked(more)
  {
    if AllPacked(before + more) {
      assert before == (before + more)[..|before|] && more == (before + more)[|before|..];
    }
  }

  /** A round's key and tokens are those of its step. */
  lemma RoundKey(records: seq<seq<Block>>, steps: seq<Step>, aligned: bool, k: nat, live: nat, packed: Option<bool>)
    requires k < |steps|
    ensures var round := RoundsOf(records, steps, aligned)[k];
      && (round.live == live && round.packed == packed <==> InGroup(records, steps, aligned, k, live, packed))
      && round.tokens == if aligned then SumBy(CommittedOf, PresentAt(records, k)) else 0
  {
    PresentPacked(records, k);
  }

  lemma KeyTotalNext(rounds: seq<Round>, n: nat, live: nat, packed: Option<bool>)
    requires n < |rounds|
    ensures var before, after := KeyTotal(rounds, n, live, packed), KeyTotal(rounds, n + 1, live, packed);
      var round := rounds[n];
      var own := round.live == live && round.packed == packed;
      && after.rounds == before.rounds + (if own then 1 else 0)
      && after.tokens == before.tokens + (if own then round.tokens else 0)
  {
  }

  lemma {:induction false} KeyTotalIs(records: seq<seq<Block>>, steps: seq<Step>, aligned: bool, n: nat, live: nat,
                                      packed: Option<bool>, rounds: seq<Round>)
    requires n <= |steps| && rounds == RoundsOf(records, steps, aligned)
    ensures KeyTotal(rounds, n, live, packed).rounds == StepsIn(records, steps, aligned, n, live, packed).0
    ensures KeyTotal(rounds, n, live, packed).tokens == StepsIn(records, steps, aligned, n, live, packed).1
  {
    if n > 0 {
      var k := n - 1;
      KeyTotalIs(records, steps, aligned, k, live, packed, rounds);
      RoundKey(records, steps, aligned, k, live, packed);
      KeyTotalNext(rounds, k, live, packed);
    }
  }

  /**
   * The groups of a split have different keys, and each holds exactly the decode steps of its live count whose blocks
   * are all packed, or not all, as it says, with the tokens those blocks committed.
   */
  lemma SplitHoldsItsSteps(records: seq<seq<Block>>, steps: seq<Step>)
    ensures var aligned := Aligned(records, steps);
      var groups := GroupsOf(RoundsOf(records, steps, aligned), |steps|);
      && DistinctGroups(groups)
      && forall i :: 0 <= i < |groups| ==>
           (groups[i].rounds, groups[i].tokens) ==
           StepsIn(records, steps, aligned, |steps|, groups[i].live, groups[i].packed)
  {
    var aligned := Aligned(records, steps);
    var rounds := RoundsOf(records, steps, aligned);
    var groups := GroupsOf(rounds, |steps|);
    GroupsHoldTheirRounds(rounds, |steps|);
    forall i | 0 <= i < |groups|
      ensures (groups[i].rounds, groups[i].tokens) ==
              StepsIn(records, steps, aligned, |steps|, groups[i].live, groups[i].packed)
    {
      assert GroupHolds(rounds, |steps|, groups[i]);
      KeyTotalIs(records, steps, aligned, |steps|, groups[i].live, groups[i].packed, rounds);
    }
  }
}
