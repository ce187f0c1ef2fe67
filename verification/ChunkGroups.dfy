/**
 * Grouping of query tokens by native chunk signature and bundling of equal groups
 * (scripts/ci/attention_head_fold.py, lines 32-63), with the ticket check of attention_mask_replay.py.
 */
module ChunkGroups {
  import opened Arithmetic
  import opened Bits
  import opened Results

  /** The native kernel's chunk size and cache capacity for one position. */
  datatype Signature = Signature(chunk: nat, capacity: nat)

  datatype Group = Group(offset: nat, rows: nat, signature: Signature)

  type Bundle = seq<Group>

  /** Python's `int.bit_length`. */
  function BitLength(n: nat): nat {
    if n == 0 then 0 else 1 + BitLength(n / 2)
  }

  function MinNat(a: nat, b: nat): nat { if a < b then a else b }

  function ChunkSize(position: nat, maxTiles: nat): nat {
    MinNat(maxTiles, Pow2(BitLength(position / 32))) * 32
  }

  /** The chunk of a position and the end of the chunk that holds it. */
  function SignatureOf(position: nat, maxTiles: nat): Signature {
    var chunk := ChunkSize(position, maxTiles);
    if chunk == 0 then Signature(0, 0) else Signature(chunk, At(Quotient(position + chunk, chunk), chunk))
  }

  /** The signatures of `rows` tokens from `start` on. */
  function Signatures(start: nat, rows: nat, maxTiles: nat): (signatures: seq<Signature>)
    ensures |signatures| == rows
    ensures forall t :: 0 <= t < rows ==> signatures[t] == SignatureOf(start + t, maxTiles)
  {
    seq(rows, (t: nat) => SignatureOf(start + t, maxTiles))
  }

  // ----- chunk_groups

  /** One iteration of the token loop: extend the last group or open a new one. */
  function AddToken(groups: seq<Group>, offset: nat, signature: Signature, maxRows: nat): seq<Group> {
    if groups != [] && groups[|groups| - 1].signature == signature && groups[|groups| - 1].rows < maxRows
    then groups[|groups| - 1 := groups[|groups| - 1].(rows := groups[|groups| - 1].rows + 1)]
    else groups + [Group(offset, 1, signature)]
  }

  /** The groups of the first `n` tokens. */
  function GroupsOf(signatures: seq<Signature>, n: nat, maxRows: nat): seq<Group>
    requires n <= |signatures|
  {
    if n == 0 then [] else AddToken(GroupsOf(signatures, n - 1, maxRows), n - 1, signatures[n - 1], maxRows)
  }

  /** All groups of a ticket. */
  function TicketGroups(start: nat, rows: nat, maxTiles: nat, maxRows: nat): seq<Group> {
    GroupsOf(Signatures(start, rows, maxTiles), rows, maxRows)
  }

  method ChunkGroupsOf(start: int, rows: int, maxTiles: int, maxRows: int) returns (r: Result<seq<Group>>)
    ensures r.Ok? <==> start >= 0 && 1 <= rows <= 32 && maxTiles in {4, 8} && 1 <= maxRows <= 32
    ensures r.Ok? ==> r.value == TicketGroups(start, rows, maxTiles, maxRows)
  {
    if start < 0 || !(1 <= rows <= 32) || maxTiles !in {4, 8} || !(1 <= maxRows <= 32) {
      return Raised;
    }
    var groups: seq<Group> := [];
    ghost var signatures := Signatures(start, rows, maxTiles);
    for offset := 0 to rows
      invariant groups == GroupsOf(signatures, offset, maxRows)
    {
      var signature := NativeSignature(start, offset, maxTiles, signatures);
      groups := PlaceToken(groups, offset, signature, maxRows);
    }
    r := Ok(groups);
  }

  /** The native signature of token `offset`. */
  method NativeSignature(start: nat, offset: nat, maxTiles: nat, ghost signatures: seq<Signature>)
    returns (signature: Signature)
    requires offset < |signatures| && signatures == Signatures(start, |signatures|, maxTiles)
    ensures signature == signatures[offset]
  {
    signature := SignatureOf(start + offset, maxTiles);
  }

  /** The body of the token loop. */
  method PlaceToken(groups: seq<Group>, offset: nat, signature: Signature, maxRows: nat) returns (next: seq<Group>)
    ensures next == AddToken(groups, offset, signature, maxRows)
  {
    var last := |groups| - 1;
    if groups != [] && groups[last].signature == signature && groups[last].rows < maxRows {
      next := groups[last := groups[last].(rows := groups[last].rows + 1)];
    } else {
      next := groups + [Group(offset, 1, signature)];
    }
  }

  /** Tokens covered by the first `i` groups. */
  function Covered(groups: seq<Group>, i: nat): nat
    requires i <= |groups|
  {
    if i == 0 then 0 else Covered(groups, i - 1) + groups[i - 1].rows
  }

  /** A group's tokens follow those of the groups before it, are between one and maxRows, and share its signature. */
  predicate GroupFits(groups: seq<Group>, i: nat, signatures: seq<Signature>, maxRows: nat)
    requires i < |groups|
  {
    var group := groups[i];
    && group.offset == Covered(groups, i) && 1 <= group.rows <= maxRows && group.offset + group.rows <= |signatures|
    && forall t :: group.offset <= t < group.offset + group.rows ==> signatures[t] == group.signature
  }

  predicate AllFit(groups: seq<Group>, signatures: seq<Signature>, maxRows: nat) {
    forall i :: 0 <= i < |groups| ==> GroupFits(groups, i, signatures, maxRows)
  }

  /** Consecutive groups differ in signature unless the first is full. */
  predicate GreedyAt(groups: seq<Group>, i: nat, maxRows: nat)
    requires i + 1 < |groups|
  {
    groups[i].signature != groups[i + 1].signature || groups[i].rows == maxRows
  }

  predicate Greedy(groups: seq<Group>, maxRows: nat) {
    forall i :: 0 <= i < |groups| - 1 ==> GreedyAt(groups, i, maxRows)
  }

  lemma {:induction false} CoveredPrefix(a: seq<Group>, b: seq<Group>, i: nat)
    requires i <= |a| && i <= |b| && a[..i] == b[..i]
    ensures Covered(a, i) == Covered(b, i)
  {
    if i > 0 {
      assert a[..i - 1] == a[..i][..i - 1] == b[..i][..i - 1] == b[..i - 1];
      assert a[i - 1] == a[..i][i - 1] == b[..i][i - 1];
      CoveredPrefix(a, b, i - 1);
    }
  }

  /** A complete, ordered and greedy grouping of the first `n` tokens. */
  predicate Grouping(groups: seq<Group>, n: nat, signatures: seq<Signature>, maxRows: nat) {
    Covered(groups, |groups|) == n && AllFit(groups, signatures, maxRows) && Greedy(groups, maxRows)
  }

  lemma ExtendFits(groups: seq<Group>, n: nat, signatures: seq<Signature>, maxRows: nat)
    requires n < |signatures| && groups != [] && Grouping(groups, n, signatures, maxRows)
    requires groups[|groups| - 1].signature == signatures[n] && groups[|groups| - 1].rows < maxRows
    ensures var last := |groups| - 1;
      Grouping(groups[last := groups[last].(rows := groups[last].rows + 1)], n + 1, signatures, maxRows)
  {
    var last := |groups| - 1;
    var after := groups[last := groups[last].(rows := groups[last].rows + 1)];
    CoveredPrefix(groups, after, last);
    forall i | 0 <= i < |after| ensures GroupFits(after, i, signatures, maxRows) {
      CoveredPrefix(groups, after, i);
      assert GroupFits(groups, i, signatures, maxRows);
    }
    forall i | 0 <= i < |after| - 1 ensures GreedyAt(after, i, maxRows) {
      assert GreedyAt(groups, i, maxRows);
    }
  }

  lemma AppendFits(groups: seq<Group>, n: nat, signatures: seq<Signature>, maxRows: nat)
    requires maxRows > 0 && n < |signatures| && Grouping(groups, n, signatures, maxRows)
    requires groups != [] ==> groups[|groups| - 1].signature != signatures[n] || groups[|groups| - 1].rows == maxRows
    ensures Grouping(groups + [Group(n, 1, signatures[n])], n + 1, signatures, maxRows)
  {
    var after := groups + [Group(n, 1, signatures[n])];
    CoveredPrefix(groups, after, |groups|);
    forall i | 0 <= i < |after| ensures GroupFits(after, i, signatures, maxRows) {
      CoveredPrefix(groups, after, i);
      if i < |groups| {
        assert GroupFits(groups, i, signatures, maxRows);
      }
    }
    forall i | 0 <= i < |after| - 1 ensures GreedyAt(after, i, maxRows) {
      if i < |groups| - 1 {
        assert GreedyAt(groups, i, maxRows);
      }
    }
  }

  /** The groups split exactly the tokens, in order, into runs of one signature, and no sooner than needed. */
  lemma {:induction false} GroupsPartitionTokens(signatures: seq<Signature>, n: nat, maxRows: nat)
    requires maxRows > 0 && n <= |signatures|
    ensures Grouping(GroupsOf(signatures, n, maxRows), n, signatures, maxRows)
  {
    if n > 0 {
      GroupsPartitionTokens(signatures, n - 1, maxRows);
      var groups := GroupsOf(signatures, n - 1, maxRows);
      var last := |groups| - 1;
      if groups != [] {
        assert GroupFits(groups, last, signatures, maxRows);
      }
      if groups != [] && groups[last].signature == signatures[n - 1] && groups[last].rows < maxRows {
        ExtendFits(groups, n - 1, signatures, maxRows);
      } else {
        AppendFits(groups, n - 1, signatures, maxRows);
      }
    }
  }

  // ----- parallel_groups

  function AddGroup(bundles: seq<Bundle>, group: Group, maxBatches: nat): seq<Bundle> {
    if bundles != [] && 0 < |bundles[|bundles| - 1]| < maxBatches
       && bundles[|bundles| - 1][0].rows == group.rows && bundles[|bundles| - 1][0].signature == group.signature
    then bundles[|bundles| - 1 := bundles[|bundles| - 1] + [group]]
    else bundles + [[group]]
  }

  /** The bundles of the first `n` groups. */
  function BundlesOf(groups: seq<Group>, n: nat, maxBatches: nat): seq<Bundle>
    requires n <= |groups|
  {
    if n == 0 then [] else AddGroup(BundlesOf(groups, n - 1, maxBatches), groups[n - 1], maxBatches)
  }

  function ParallelGroupsOf(start: nat, rows: nat, maxBatches: nat, maxRows: nat): seq<Bundle> {
    var groups := TicketGroups(start, rows, 8, maxRows);
    BundlesOf(groups, |groups|, maxBatches)
  }

  method ParallelGroups(start: int, rows: int, maxBatches: int, maxRows: int) returns (r: Result<seq<Bundle>>)
    ensures r.Ok? <==> 1 <= maxBatches <= 3 && maxRows in {4, 8} && start >= 0 && 1 <= rows <= 32
    ensures r.Ok? ==> r.value == ParallelGroupsOf(start, rows, maxBatches, maxRows)
  {
    if !(1 <= maxBatches <= 3) || maxRows !in {4, 8} {
      return Raised;
    }
    var groups := ChunkGroupsOf(start, rows, 8, maxRows);
    if groups.Raised? {
      return Raised;
    }
    var bundles: seq<Bundle> := [];
    for i := 0 to |groups.value|
      invariant bundles == BundlesOf(groups.value, i, maxBatches)
    {
      bundles := PlaceGroup(bundles, groups.value[i], maxBatches);
    }
    r := Ok(bundles);
  }

  /** The body of the group loop. */
  method PlaceGroup(bundles: seq<Bundle>, group: Group, maxBatches: nat) returns (next: seq<Bundle>)
    ensures next == AddGroup(bundles, group, maxBatches)
  {
    var last := |bundles| - 1;
    if bundles != [] && 0 < |bundles[last]| < maxBatches && bundles[last][0].rows == group.rows
      && bundles[last][0].signature == group.signature
    {
      next := bundles[last := bundles[last] + [group]];
    } else {
      next := bundles + [[group]];
    }
  }

  function Joined(bundles: seq<Bundle>): seq<Group> {
    if bundles == [] then [] else Joined(bundles[..|bundles| - 1]) + bundles[|bundles| - 1]
  }

  /** Between one and maxBatches groups of one shape. */
  predicate BundleFits(bundle: Bundle, maxBatches: nat) {
    && 1 <= |bundle| <= maxBatches
    && forall b :: 0 <= b < |bundle| ==> bundle[b].rows == bundle[0].rows && bundle[b].signature == bundle[0].signature
  }

  predicate AllBundlesFit(bundles: seq<Bundle>, maxBatches: nat) {
    forall i :: 0 <= i < |bundles| ==> BundleFits(bundles[i], maxBatches)
  }

  lemma AddGroupJoins(bundles: seq<Bundle>, group: Group, maxBatches: nat)
    requires maxBatches > 0 && AllBundlesFit(bundles, maxBatches)
    ensures Joined(AddGroup(bundles, group, maxBatches)) == Joined(bundles) + [group]
    ensures AllBundlesFit(AddGroup(bundles, group, maxBatches), maxBatches)
  {
    var after := AddGroup(bundles, group, maxBatches);
    var last := |after| - 1;
    assert after[..last] == bundles[..last];
    if |after| == |bundles| {
      assert Joined(after) == Joined(bundles[..last]) + (bundles[last] + [group]);
    } else {
      assert bundles[..last] == bundles;
    }
  }

  /** Bundling keeps the groups and their order, and bundles only groups of one shape. */
  lemma {:induction false} BundlesKeepGroups(groups: seq<Group>, n: nat, maxBatches: nat)
    requires n <= |groups| && maxBatches > 0
    ensures Joined(BundlesOf(groups, n, maxBatches)) == groups[..n]
    ensures AllBundlesFit(BundlesOf(groups, n, maxBatches), maxBatches)
  {
    if n > 0 {
      BundlesKeepGroups(groups, n - 1, maxBatches);
      BundleNext(BundlesOf(groups, n - 1, maxBatches), BundlesOf(groups, n, maxBatches), groups, n - 1, maxBatches);
    }
  }

  lemma BundleNext(before: seq<Bundle>, after: seq<Bundle>, groups: seq<Group>, n: nat, maxBatches: nat)
    requires n < |groups| && maxBatches > 0 && after == AddGroup(before, groups[n], maxBatches)
    requires Joined(before) == groups[..n] && AllBundlesFit(before, maxBatches)
    ensures Joined(after) == groups[..n + 1] && AllBundlesFit(after, maxBatches)
  {
    AddGroupJoins(before, groups[n], maxBatches);
    assert groups[..n + 1] == groups[..n] + [groups[n]];
  }

  /** Consecutive bundles hold groups of different shapes unless the first is full. */
  predicate FilledAt(bundles: seq<Bundle>, i: nat, maxBatches: nat)
    requires i + 1 < |bundles| && AllBundlesFit(bundles, maxBatches)
  {
    assert BundleFits(bundles[i], maxBatches) && BundleFits(bundles[i + 1], maxBatches);
    var a, b := bundles[i][0], bundles[i + 1][0];
    |bundles[i]| == maxBatches || a.rows != b.rows || a.signature != b.signature
  }

  predicate Filled(bundles: seq<Bundle>, maxBatches: nat)
    requires AllBundlesFit(bundles, maxBatches)
  {
    forall i :: 0 <= i < |bundles| - 1 ==> FilledAt(bundles, i, maxBatches)
  }

  lemma AddGroupFills(bundles: seq<Bundle>, group: Group, maxBatches: nat)
    requires maxBatches > 0 && AllBundlesFit(bundles, maxBatches) && Filled(bundles, maxBatches)
    ensures AllBundlesFit(AddGroup(bundles, group, maxBatches), maxBatches)
    ensures Filled(AddGroup(bundles, group, maxBatches), maxBatches)
  {
    AddGroupJoins(bundles, group, maxBatches);
    var after := AddGroup(bundles, group, maxBatches);
    forall i | 0 <= i < |after| - 1 ensures FilledAt(after, i, maxBatches) {
      assert i < |bundles| - 1 ==> FilledAt(bundles, i, maxBatches);
      assert BundleFits(bundles[i], maxBatches);
    }
  }

  /** Bundles are filled: a new one is opened only for another shape or when the last one is full. */
  lemma {:induction false} BundlesFill(groups: seq<Group>, n: nat, maxBatches: nat)
    requires n <= |groups| && maxBatches > 0
    ensures AllBundlesFit(BundlesOf(groups, n, maxBatches), maxBatches)
    ensures Filled(BundlesOf(groups, n, maxBatches), maxBatches)
  {
    if n > 0 {
      BundlesFill(groups, n - 1, maxBatches);
      AddGroupFills(BundlesOf(groups, n - 1, maxBatches), groups[n - 1], maxBatches);
    }
  }

  /** Tokens before bundle `i`. */
  function BundleOffset(bundles: seq<Bundle>, i: nat): nat
    requires i <= |bundles|
  {
    Covered(Joined(bundles[..i]), |Joined(bundles[..i])|)
  }

  lemma {:induction false} CoveredSum(a: seq<Group>, b: seq<Group>, i: nat)
    requires i <= |b|
    ensures Covered(a + b, |a| + i) == Covered(a, |a|) + Covered(b, i)
  {
    if i > 0 {
      CoveredSum(a, b, i - 1);
    } else {
      assert (a + b)[..|a|] == a[..|a|];
      CoveredPrefix(a + b, a, |a|);
    }
  }

  lemma {:induction false} CoveredUniform(bundle: Bundle, rows: nat, b: nat)
    requires b <= |bundle| && forall i :: 0 <= i < |bundle| ==> bundle[i].rows == rows
    ensures Covered(bundle, b) == At(b, rows)
  {
    if b > 0 {
      CoveredUniform(bundle, rows, b - 1);
    }
  }

  /** Contiguous groups: each starts where the ones before it end. */
  predicate Contiguous(groups: seq<Group>) {
    forall i :: 0 <= i < |groups| ==> groups[i].offset == Covered(groups, i)
  }

  lemma {:induction false} JoinedSplit(bundles: seq<Bundle>, i: nat)
    requires i < |bundles|
    ensures Joined(bundles[..i]) + bundles[i] <= Joined(bundles)
  {
    if i == |bundles| - 1 {
    } else {
      var front := bundles[..|bundles| - 1];
      JoinedSplit(front, i);
      assert front[..i] == bundles[..i];
    }
  }

  /** Group `b` of a bundle starts b * rows tokens after the bundle's first group. */
  lemma BundleOffsets(bundles: seq<Bundle>, i: nat, b: nat, maxBatches: nat)
    requires Contiguous(Joined(bundles)) && i < |bundles| && BundleFits(bundles[i], maxBatches) && b < |bundles[i]|
    ensures bundles[i][b].offset == bundles[i][0].offset + At(b, bundles[i][0].rows)
    ensures bundles[i][0].offset == BundleOffset(bundles, i)
  {
    JoinedSplit(bundles, i);
    var front, all := Joined(bundles[..i]), Joined(bundles);
    var part := front + bundles[i];
    forall c | 0 <= c < |bundles[i]|
      ensures bundles[i][c].offset == Covered(front, |front|) + At(c, bundles[i][0].rows)
    {
      assert part[|front| + c] == all[|front| + c] == bundles[i][c];
      assert all[..|front| + c] == part[..|front| + c];
      CoveredPrefix(all, part, |front| + c);
      CoveredSum(front, bundles[i], c);
      CoveredUniform(bundles[i], bundles[i][0].rows, c);
    }
  }

  // ----- Tickets and mask families

  /** The environment of the ticket check: the context ladder, and whether it is allowed where it is set. */
  datatype Ladder = Off | On(allowed: bool)

  const LADDER_CAPACITIES: set<int> := {2304, 4352, 8448, 16640, 33024, 65792, 131328, 262400}

  /** First position of the family of a capacity. */
  function FamilyStart(capacity: int, short: bool): int {
    if short && capacity - 256 < 128 then 128 else capacity - 256
  }

  /** The conditions of `validate_ticket`. */
  predicate ValidTicket(ladder: Ladder, start: int, rows: int, capacity: int, short: bool) {
    && (ladder.On? ==> ladder.allowed && !short && capacity in LADDER_CAPACITIES)
    && (var least, most := if ladder.On? then 2304 else if short then 256 else 4096,
                           if ladder.On? then 262400 else if short then 768 else 16640;
        1 <= rows <= 32 && least <= capacity <= most && capacity % 256 == 0)
    && (short ==> rows == 8)
    && FamilyStart(capacity, short) <= start && start + rows <= capacity
  }

  method ValidateTicket(ladder: Ladder, start: int, rows: int, capacity: int, short: bool) returns (ok: bool)
    ensures ok == ValidTicket(ladder, start, rows, capacity, short)
  {
    var minimum, maximum := if short then 256 else 4096, if short then 768 else 16640;
    if ladder.On? {
      if !ladder.allowed || short {
        return false;
      }
      if capacity !in LADDER_CAPACITIES {
        return false;
      }
      minimum, maximum := 2304, 262400;
    }
    if !(1 <= rows <= 32) || capacity < minimum || capacity > maximum || capacity % 256 != 0 {
      return false;
    }
    if short && rows != 8 {
      return false;
    }
    var first := FamilyStart(capacity, short);
    ok := !(start < first || start + rows > capacity);
  }

  /** From position 128 on, the native kernel uses 256-position chunks and rounds the capacity up to one. */
  lemma LongSignature(position: nat)
    requires position >= 128
    ensures SignatureOf(position, 8) == Signature(256, (position / 256 + 1) * 256)
  {
    LongChunk(position / 32);
    QuotientIsDivision(position + 256, 256);
    AtIsProduct(position / 256 + 1, 256);
  }

  lemma LongChunk(tiles: nat)
    requires tiles >= 4
    ensures Pow2(BitLength(tiles)) >= 8
  {
    var rest := tiles / 2 / 2 / 2;
    assert BitLength(tiles) == 1 + BitLength(tiles / 2) == 2 + BitLength(tiles / 2 / 2) == 3 + BitLength(rest);
    assert Pow2(1) == 2 && Pow2(2) == 4 && Pow2(3) == 8;
    Pow2Sum(3, BitLength(rest));
  }

  lemma ChunkOfTiles(tiles: nat)
    ensures Pow2(BitLength(tiles)) ==
            (if tiles == 0 then 1 else if tiles == 1 then 2 else if tiles < 4 then 4 else Pow2(BitLength(tiles)))
    ensures tiles >= 4 ==> Pow2(BitLength(tiles)) >= 8
  {
    assert Pow2(0) == 1 && Pow2(1) == 2 && Pow2(2) == 4;
    if tiles >= 4 {
      LongChunk(tiles);
    } else if tiles >= 2 {
      assert BitLength(tiles) == 1 + BitLength(1) == 2;
    }
  }

  lemma CapacityCovers(position: nat, chunk: nat)
    requires chunk in {32, 64, 128, 256}
    ensures var capacity := At(Quotient(position + chunk, chunk), chunk);
      capacity % chunk == 0 && capacity - chunk <= position < capacity
  {
    var n := Quotient(position + chunk, chunk);
    Divided(position + chunk, chunk);
    AtIsProduct(n, chunk);
    DivModUnique(At(n, chunk), chunk, n, 0);
  }

  /**
   * The native chunk is the smallest of one, two, four or eight tiles that covers the position, up to the limit, and
   * the capacity the end of the chunk that holds it.
   */
  lemma SignatureCovers(position: nat, maxTiles: nat)
    requires maxTiles in {4, 8}
    ensures var s := SignatureOf(position, maxTiles);
      && s.chunk == (if position < 32 then 32 else if position < 64 then 64
                     else if position < 128 || maxTiles == 4 then 128 else 256)
      && s.capacity % s.chunk == 0 && s.capacity - s.chunk <= position < s.capacity
  {
    ChunkOfTiles(position / 32);
    CapacityCovers(position, ChunkSize(position, maxTiles));
  }

  /** Every position of an admitted ticket has the family's signature. */
  lemma FamilySignatures(ladder: Ladder, start: int, rows: int, capacity: int, short: bool)
    requires ValidTicket(ladder, start, rows, capacity, short)
    ensures start >= 0 && forall t :: 0 <= t < rows ==> Signatures(start, rows, 8)[t] == Signature(256, capacity)
  {
    forall t | 0 <= t < rows ensures Signatures(start, rows, 8)[t] == Signature(256, capacity) {
      LongSignature(start + t);
      assert (start + t) / 256 + 1 == capacity / 256;
    }
  }

  /** The ticket at the family's first position is admitted whenever any ticket of that width is. */
  lemma FamilyStartAdmitted(ladder: Ladder, start: int, rows: int, capacity: int, short: bool)
    requires ValidTicket(ladder, start, rows, capacity, short)
    ensures ValidTicket(ladder, FamilyStart(capacity, short), rows, capacity, short)
  {
  }

  /**
   * The bundles prepared once at the family's first position are those of every admitted ticket, with chunk
   * 256 and the captured capacity.
   */
  lemma PreparedBundlesFitFamily(ladder: Ladder, start: int, rows: int, capacity: int, short: bool, maxRows: nat)
    requires ValidTicket(ladder, start, rows, capacity, short) && maxRows in {4, 8}
    ensures FamilyStart(capacity, short) >= 0 && start >= 0
    ensures ParallelGroupsOf(FamilyStart(capacity, short), rows, 3, maxRows) ==
              ParallelGroupsOf(start, rows, 3, maxRows)
    ensures forall i :: 0 <= i < |TicketGroups(start, rows, 8, maxRows)| ==>
              TicketGroups(start, rows, 8, maxRows)[i].signature == Signature(256, capacity)
  {
    var first := FamilyStart(capacity, short);
    FamilyStartAdmitted(ladder, start, rows, capacity, short);
    FamilySignatures(ladder, start, rows, capacity, short);
    FamilySignatures(ladder, first, rows, capacity, short);
    var signatures := Signatures(start, rows, 8);
    assert signatures == Signatures(first, rows, 8);
    GroupsPartitionTokens(signatures, rows, maxRows);
    var groups := TicketGroups(start, rows, 8, maxRows);
    forall i | 0 <= i < |groups| ensures groups[i].signature == Signature(256, capacity) {
      assert GroupFits(groups, i, signatures, maxRows);
      assert signatures[groups[i].offset] == groups[i].signature;
    }
  }
}
