/**
 * The replay reader itself (scripts/ci/attention_replay.py): one set of prepared bundles and mask buffers, reused at
 * every position of its chunk family.
 */
module AttentionReplay {
  import opened Arithmetic
  import opened AttentionEquivalence
  import opened AttentionParallel
  import opened ChunkGroups
  import opened HeadFold
  import opened MaskReplay
  import opened ReplayProtocol
  import opened Results
  import opened SerialAttention

  // ----- prepare

  /** The mask geometry of a bundle. */
  function ShapeOf(bundle: Bundle, capacity: nat): Shape
    requires bundle != []
  {
    Shape(bundle[0].rows, |bundle|, bundle[0].offset, capacity)
  }

  /** The geometry checks of `prepare`. */
  predicate Preparable(ladder: Ladder, bundle: Bundle, capacity: int, short: bool)
    requires bundle != []
  {
    var rows, batches, offset := bundle[0].rows, |bundle|, bundle[0].offset;
    && 1 <= rows <= 8 && 1 <= batches <= 3 && offset + At(batches, rows) <= 32
    && ValidTicket(ladder, FamilyStart(capacity, short), offset + At(batches, rows), capacity, short)
  }

  /** The groups of tokens of one signature that fill at most two groups of `width`. */
  lemma {:induction false} UniformGroups(signatures: seq<Signature>, signature: Signature, n: nat, width: nat)
    requires n <= |signatures| && 0 < width && n <= width + width
    requires forall t :: 0 <= t < |signatures| ==> signatures[t] == signature
    ensures GroupsOf(signatures, n, width) ==
            if n == 0 then [] else if n <= width then [Group(0, n, signature)]
            else [Group(0, width, signature), Group(width, n - width, signature)]
  {
    if n > 0 {
      UniformGroups(signatures, signature, n - 1, width);
    }
  }

  /** Two groups of one shape are one bundle. */
  lemma PairBundled(groups: seq<Group>, n: nat, maxBatches: nat)
    requires n == |groups| == 2 && maxBatches >= 2
    requires groups[0].rows == groups[1].rows && groups[0].signature == groups[1].signature
    ensures BundlesOf(groups, n, maxBatches) == [groups]
  {
    assert BundlesOf(groups, n - 2, maxBatches) == [];
    var one := BundlesOf(groups, n - 1, maxBatches);
    assert one == AddGroup([], groups[0], maxBatches) == [[groups[0]]];
    assert BundlesOf(groups, n, maxBatches) == AddGroup(one, groups[1], maxBatches);
    assert one[0] + [groups[1]] == groups;
    assert one[0 := groups] == [groups];
  }

  /** In short context the eight tokens are one bundle of two groups. */
  lemma ShortBundles(ladder: Ladder, start: int, rows: nat, capacity: int, maxRows: nat)
    requires ValidTicket(ladder, start, rows, capacity, true) && maxRows == 4
    ensures start >= 0 && ParallelGroupsOf(start, rows, 3, maxRows) ==
            [[Group(0, maxRows, Signature(256, capacity)), Group(maxRows, maxRows, Signature(256, capacity))]]
  {
    FamilySignatures(ladder, start, rows, capacity, true);
    UniformGroups(Signatures(start, rows, 8), Signature(256, capacity), rows, maxRows);
    var groups := TicketGroups(start, rows, 8, maxRows);
    PairBundled(groups, |groups|, 3);
  }

  /** The bundles prepared for a family are those of a native ticket at any admitted start. */
  lemma FamilyBundles(f: Family, start: int, maxRows: nat, table: seq<nat>)
    requires f.Admits(start) && maxRows in {4, 8}
    ensures f.First() >= 0 && start >= 0
    ensures Joined(ParallelGroupsOf(f.First(), f.rows, 3, maxRows)) == TicketGroups(start, f.rows, 8, maxRows)
    ensures AllBundlesFit(ParallelGroupsOf(f.First(), f.rows, 3, maxRows), 3)
  {
    PreparedBundlesFitFamily(f.ladder, start, f.rows, f.capacity, f.short, maxRows);
    var groups := TicketGroups(start, f.rows, 8, maxRows);
    BundlesKeepGroups(groups, |groups|, 3);
    assert groups[..|groups|] == groups;
  }

  /** Where group `b` of prepared bundle `i` lies, for every admitted start. */
  lemma FamilyGroup(f: Family, start: int, maxRows: nat, i: nat, b: nat)
    requires f.Admits(start) && maxRows in {4, 8} && f.First() >= 0
    requires var bundles := ParallelGroupsOf(f.First(), f.rows, 3, maxRows);
      i < |bundles| && b < |bundles[i]|
    ensures var bundle := ParallelGroupsOf(f.First(), f.rows, 3, maxRows)[i];
      && 1 <= |bundle| <= 3 && 1 <= bundle[b].rows == bundle[0].rows <= maxRows
      && bundle[b].offset == bundle[0].offset + At(b, bundle[0].rows)
      && bundle[b].offset + bundle[b].rows <= f.rows
      && bundle[b].signature == Signature(256, f.capacity)
  {
    var bundles := ParallelGroupsOf(f.First(), f.rows, 3, maxRows);
    var ticket := NativeTicket(f.First(), f.rows, []);
    FamilyStartAdmitted(f.ladder, start, f.rows, f.capacity, f.short);
    FamilyBundles(f, f.First(), maxRows, []);
    assert BundleFits(bundles[i], 3);
    BundleGroups(bundles, ticket, maxRows, i, b);
    FamilySignatures(f.ladder, f.First(), f.rows, f.capacity, f.short);
    assert TokenSigned(ticket, bundles[i][b], 0);
  }

  /** `prepare` accepts every bundle of the family. */
  lemma PrepareAccepts(f: Family, maxRows: nat, i: nat)
    requires f.Admits(f.First()) && maxRows in {4, 8} && (f.short ==> maxRows == 4)
    requires f.First() >= 0 && i < |ParallelGroupsOf(f.First(), f.rows, 3, maxRows)|
    ensures var bundle := ParallelGroupsOf(f.First(), f.rows, 3, maxRows)[i];
      bundle != [] && Preparable(f.ladder, bundle, f.capacity, f.short)
  {
    var bundles := ParallelGroupsOf(f.First(), f.rows, 3, maxRows);
    FamilyBundles(f, f.First(), maxRows, []);
    assert BundleFits(bundles[i], 3);
    var bundle, last := bundles[i], |bundles[i]| - 1;
    FamilyGroup(f, f.First(), maxRows, i, last);
    var tokens := bundle[0].offset + At(last + 1, bundle[0].rows);
    assert tokens == bundle[last].offset + bundle[last].rows <= f.rows;
    if f.short {
      ShortBundles(f.ladder, f.First(), f.rows, f.capacity, maxRows);
      assert bundle == bundles[0];
      assert tokens == bundle[last].offset + bundle[last].rows == 8;
    }
    FewerTokens(f.ladder, f.First(), f.rows, tokens, f.capacity, f.short);
  }

  /** A ticket of fewer tokens at the same position is admitted too, in short context only for all eight. */
  lemma FewerTokens(ladder: Ladder, start: int, rows: int, fewer: int, capacity: int, short: bool)
    requires ValidTicket(ladder, start, rows, capacity, short) && 1 <= fewer <= rows && (short ==> fewer == 8)
    ensures ValidTicket(ladder, start, fewer, capacity, short)
  {
  }

  // ----- Masks as the attention reads them

  /** The mask of a bundle, entry by entry. */
  function MaskRows(s: Shape, pages: seq<Tile>): (mask: seq<seq<seq<nat>>>)
    requires ValidShape(s) && |pages| == PageCount(s)
    ensures |mask| == s.batches
    ensures forall b :: 0 <= b < s.batches ==> |mask[b]| == s.rows * 12
    ensures forall b, h :: 0 <= b < s.batches && 0 <= h < s.rows * 12 ==> mask[b][h] == MaskRowOf(s, pages, b, h)
  {
    seq(s.batches, (b: nat) requires b < s.batches =>
      seq(s.rows * 12, (h: nat) requires h < s.rows * 12 => MaskRowOf(s, pages, b, h)))
  }

  function MaskRowOf(s: Shape, pages: seq<Tile>, b: nat, h: nat): (row: seq<nat>)
    requires ValidShape(s) && |pages| == PageCount(s) && b < s.batches && h < s.rows * 12
    ensures |row| == s.capacity
    ensures forall p :: 0 <= p < s.capacity ==> row[p] == Entry(s, pages, b, h, p)
  {
    seq(s.capacity, (p: nat) requires p < s.capacity => Entry(s, pages, b, h, p))
  }

  /** Refreshed masks are the causal masks of the bundle's groups. */
  lemma RefreshedMaskServes(s: Shape, start: nat, pages: seq<Tile>, b: nat)
    requires ValidShape(s) && |pages| == PageCount(s) && s.capacity - 256 <= start && b < s.batches
    requires FrontClear(s, pages) && TailsHold(s, start, pages, Strips(s) * 8)
    requires start + s.offset + At(b, s.rows) + s.rows <= s.capacity
    ensures CausalMask(MaskRows(s, pages)[b], start + s.offset + At(b, s.rows), s.rows, s.capacity)
  {
    forall h | 0 <= h < s.rows * 12
      ensures CausalRow(MaskRows(s, pages)[b][h], TokenPosition(start + s.offset + At(b, s.rows), s.rows, h))
    {
      RefreshedRowIsCausal(s, start, pages, b, h);
    }
  }

  lemma RefreshedRowIsCausal(s: Shape, start: nat, pages: seq<Tile>, b: nat, h: nat)
    requires ValidShape(s) && |pages| == PageCount(s) && s.capacity - 256 <= start && b < s.batches && h < s.rows * 12
    requires FrontClear(s, pages) && TailsHold(s, start, pages, Strips(s) * 8)
    requires start + s.offset + At(b, s.rows) + s.rows <= s.capacity
    ensures CausalRow(MaskRowOf(s, pages, b, h), TokenPosition(start + s.offset + At(b, s.rows), s.rows, h))
  {
    var first, row := start + s.offset + At(b, s.rows), MaskRowOf(s, pages, b, h);
    TokenInside(s.rows, h);
    forall p | 0 <= p < s.capacity ensures row[p] == CausalWord(s.rows, first, h, p) {
      RefreshedMaskIsCausal(s, start, pages, b, h, p);
    }
  }

  lemma TokenInside(rows: nat, head: nat)
    requires rows > 0 && head < rows * 12
    ensures Remainder(head, rows * 6) / 6 < rows
  {
  }

  // ----- Workloads

  /** A bundle's workload: the pages its capacity covers once per group, its mask, chunks of 256 positions. */
  function WorkloadOf(f: Family, table: seq<nat>, bundle: Bundle, pages: seq<Tile>): (w: Workload)
    requires f.capacity >= 0 && f.capacity / 64 <= |table| && bundle != []
    requires ValidShape(ShapeOf(bundle, f.capacity)) && |pages| == PageCount(ShapeOf(bundle, f.capacity))
    ensures w.bundle == bundle && Shaped(w)
  {
    Workload(bundle, seq(|bundle|, _ => table[..f.capacity / 64]), MaskRows(ShapeOf(bundle, f.capacity), pages), 256)
  }

  /** The parts of a reader that never change. */
  ghost predicate Prepared(f: Family, maxRows: nat, table: seq<nat>, bundles: seq<Bundle>) {
    && f.rows in {8, 16, 32} && maxRows in {4, 8} && (f.short ==> maxRows == 4) && f.Opens() &&
        f.capacity / 64 <= |table|
    && f.bundles == |bundles| && f.First() >= 0 && bundles == ParallelGroupsOf(f.First(), f.rows, 3, maxRows)
  }

  lemma PreparedBundle(f: Family, maxRows: nat, table: seq<nat>, bundles: seq<Bundle>, i: nat)
    requires Prepared(f, maxRows, table, bundles) && i < |bundles|
    ensures bundles[i] != [] && ValidShape(ShapeOf(bundles[i], f.capacity)) && Accepted(bundles[i], f.rows)
  {
    FamilyBundles(f, f.First(), maxRows, table);
    assert BundleFits(bundles[i], 3);
    forall b | 0 <= b < |bundles[i]|
      ensures 1 <= bundles[i][b].rows <= 8 && bundles[i][b].offset + bundles[i][b].rows <= f.rows
    {
      FamilyGroup(f, f.First(), maxRows, i, b);
    }
  }

  /** A family has bundles, in short context one. */
  lemma FamilyOpens(f: Family, maxRows: nat)
    requires f.Admits(f.First()) && maxRows in {4, 8} && (f.short ==> maxRows == 4) && f.First() >= 0
    requires f.bundles == |ParallelGroupsOf(f.First(), f.rows, 3, maxRows)|
    ensures f.Opens()
  {
    FamilyBundles(f, f.First(), maxRows, []);
    GroupsPartitionTokens(Signatures(f.First(), f.rows, 8), f.rows, maxRows);
    if f.short {
      ShortBundles(f.ladder, f.First(), f.rows, f.capacity, maxRows);
    }
  }

  /** A workload whose mask was refreshed at an admitted start serves the native ticket at that start. */
  lemma RefreshedWorkloadServes(f: Family, maxRows: nat, table: seq<nat>, bundles: seq<Bundle>, start: int, i: nat,
                                pages: seq<Tile>)
    requires Prepared(f, maxRows, table, bundles) && f.Admits(start) && start >= 0 && i < |bundles| && bundles[i] != []
    requires ValidShape(ShapeOf(bundles[i], f.capacity)) && |pages| == PageCount(ShapeOf(bundles[i], f.capacity))
    requires var s := ShapeOf(bundles[i], f.capacity); FrontClear(s, pages) && TailsHold(s, start, pages, Strips(s) * 8)
    ensures Served(WorkloadOf(f, table, bundles[i], pages), NativeTicket(start, f.rows, table))
  {
    var w, ticket := WorkloadOf(f, table, bundles[i], pages), NativeTicket(start, f.rows, table);
    forall b | 0 <= b < |bundles[i]| ensures GroupServed(w, b, ticket) {
      RefreshedGroup(f, maxRows, table, bundles, start, i, pages, b);
    }
  }

  lemma RefreshedGroup(f: Family, maxRows: nat, table: seq<nat>, bundles: seq<Bundle>, start: nat, i: nat,
                       pages: seq<Tile>, b: nat)
    requires Prepared(f, maxRows, table, bundles) && f.Admits(start) && i < |bundles| && b < |bundles[i]|
    requires ValidShape(ShapeOf(bundles[i], f.capacity)) && |pages| == PageCount(ShapeOf(bundles[i], f.capacity))
    requires var s := ShapeOf(bundles[i], f.capacity); FrontClear(s, pages) && TailsHold(s, start, pages, Strips(s) * 8)
    ensures GroupServed(WorkloadOf(f, table, bundles[i], pages), b, NativeTicket(start, f.rows, table))
  {
    FamilyGroup(f, start, maxRows, i, b);
    WholePages(f.capacity);
    RefreshedMaskServes(ShapeOf(bundles[i], f.capacity), start, pages, b);
    RefreshedGroupServed(f, table, bundles[i], start, pages, b);
  }

  lemma RefreshedGroupServed(f: Family, table: seq<nat>, bundle: Bundle, start: nat, pages: seq<Tile>, b: nat)
    requires f.capacity >= 0 && f.capacity % 64 == 0 && f.capacity / 64 <= |table| && b < |bundle|
    requires ValidShape(ShapeOf(bundle, f.capacity)) && |pages| == PageCount(ShapeOf(bundle, f.capacity))
    requires bundle[b].rows == bundle[0].rows && bundle[b].signature == Signature(256, f.capacity)
    requires bundle[b].offset == bundle[0].offset + At(b, bundle[0].rows)
    requires var s := ShapeOf(bundle, f.capacity);
      CausalMask(MaskRows(s, pages)[b], start + s.offset + At(b, s.rows), s.rows, s.capacity)
    ensures GroupServed(WorkloadOf(f, table, bundle, pages), b, NativeTicket(start, f.rows, table))
  {
  }

  // ----- Metadata

  predicate IsWorkload(f: Family, table: seq<nat>, bundle: Bundle, pages: seq<Tile>, w: Workload) {
    && f.capacity >= 0 && f.capacity / 64 <= |table| && bundle != [] && ValidShape(ShapeOf(bundle, f.capacity))
    && |pages| == PageCount(ShapeOf(bundle, f.capacity)) && w == WorkloadOf(f, table, bundle, pages)
  }

  /** The prepared metadata of a reader whose masks hold these pages. */
  predicate IsMetadata(f: Family, table: seq<nat>, bundles: seq<Bundle>, pages: seq<seq<Tile>>,
                       metadata: seq<Workload>)
  {
    && |metadata| == |bundles| == |pages|
    && forall i :: 0 <= i < |bundles| ==> IsWorkload(f, table, bundles[i], pages[i], metadata[i])
  }

  /** `output` is what the grouped pipeline gives under masks that hold these pages. */
  ghost predicate Computes<V(!new)>(f: Family, table: seq<nat>, bundles: seq<Bundle>, pages: seq<seq<Tile>>,
                                    attend: Attention<V>, query: seq<V>, output: seq<V>)
  {
    exists metadata :: IsMetadata(f, table, bundles, pages, metadata) && Delivers(attend, query, metadata, output)
  }

  /** The prepared metadata always has the shapes `execute` asks for. */
  lemma MetadataFits(f: Family, maxRows: nat, table: seq<nat>, bundles: seq<Bundle>, pages: seq<seq<Tile>>,
                     metadata: seq<Workload>)
    requires Prepared(f, maxRows, table, bundles) && IsMetadata(f, table, bundles, pages, metadata)
    ensures metadata != [] && AllShaped(metadata) && AllAccepted(metadata, |metadata|, f.rows)
  {
    forall i | 0 <= i < |metadata| ensures Shaped(metadata[i]) && Accepted(metadata[i].bundle, f.rows) {
      assert IsWorkload(f, table, bundles[i], pages[i], metadata[i]);
      PreparedBundle(f, maxRows, table, bundles, i);
    }
  }

  /** The pages of a bundle's mask hold what `content` says. */
  predicate BundleHolds(f: Family, bundle: Bundle, pages: seq<Tile>, content: Content) {
    && f.capacity >= 0 && bundle != [] && ValidShape(ShapeOf(bundle, f.capacity))
    && |pages| == PageCount(ShapeOf(bundle, f.capacity)) && Holds(ShapeOf(bundle, f.capacity), pages, content)
  }

  predicate AllHold(f: Family, bundles: seq<Bundle>, pages: seq<seq<Tile>>, contents: seq<Content>) {
    && |bundles| == |pages| == |contents|
    && forall i :: 0 <= i < |bundles| ==> BundleHolds(f, bundles[i], pages[i], contents[i])
  }

  /** Metadata under masks causal at an admitted start serves the native ticket there. */
  lemma MetadataServes(f: Family, maxRows: nat, table: seq<nat>, bundles: seq<Bundle>, start: int,
                       pages: seq<seq<Tile>>, contents: seq<Content>, metadata: seq<Workload>)
    requires Prepared(f, maxRows, table, bundles) && f.Admits(start) && IsMetadata(f, table, bundles, pages, metadata)
    requires AllHold(f, bundles, pages, contents) && AllAt(contents, start)
    ensures start >= 0 && Serves(metadata, NativeTicket(start, f.rows, table), maxRows)
  {
    FamilyBundles(f, start, maxRows, table);
    forall i | 0 <= i < |metadata| ensures Served(metadata[i], NativeTicket(start, f.rows, table)) {
      assert IsWorkload(f, table, bundles[i], pages[i], metadata[i]);
      assert BundleHolds(f, bundles[i], pages[i], contents[i]) && contents[i] == Some(start);
      RefreshedWorkloadServes(f, maxRows, table, bundles, start, i, pages[i]);
    }
    forall i | 0 <= i < |metadata| ensures metadata[i].bundle == bundles[i] {
      assert IsWorkload(f, table, bundles[i], pages[i], metadata[i]);
    }
    assert Bundles(metadata) == bundles;
  }

  /** Under causal masks at the staged start the pipeline gives the per-token results there. */
  lemma CausalResult<V(!new)>(f: Family, maxRows: nat, table: seq<nat>, bundles: seq<Bundle>, start: int,
                              pages: seq<seq<Tile>>, contents: seq<Content>, attend: Attention<V>, query: seq<V>,
                              output: seq<V>)
    requires Prepared(f, maxRows, table, bundles) && f.Admits(start) && |query| == f.rows * 12
    requires AllHold(f, bundles, pages, contents) && AllAt(contents, start)
    requires Computes(f, table, bundles, pages, attend, query, output)
    ensures start >= 0 && output == Serial(attend, query, NativeTicket(start, f.rows, table), f.rows)
  {
    var metadata :| IsMetadata(f, table, bundles, pages, metadata) && Delivers(attend, query, metadata, output);
    MetadataServes(f, maxRows, table, bundles, start, pages, contents, metadata);
    var ticket := NativeTicket(start, f.rows, table);
    assert |query| / 12 == f.rows == ticket.Rows();
    GroupedAttentionIsSerial(attend, query, ticket, maxRows, metadata, output);
  }

  // ----- Masks that hide nothing

  /** A tile that hides nothing. */
  predicate ZeroTile(tile: Tile) {
    forall k :: 0 <= k < 1024 ==> tile[k] == 0
  }

  /** Pages that hide nothing. */
  predicate Blank(pages: seq<Tile>) {
    forall page :: 0 <= page < |pages| ==> ZeroTile(pages[page])
  }

  lemma BlankIsClear(s: Shape, pages: seq<Tile>)
    requires ValidShape(s) && |pages| == PageCount(s) && Blank(pages)
    ensures FrontClear(s, pages)
  {
    forall strip, columnTile | 0 <= strip < Strips(s) && 0 <= columnTile < Width(s) - 8
      ensures PageClear(s, pages, strip, columnTile)
    {
      PageInRange(s, strip, columnTile);
      assert ZeroTile(pages[Page(s, strip, columnTile)]);
    }
  }

  /** What the pages of a bundle's mask hold. */
  predicate Holds(s: Shape, pages: seq<Tile>, content: Content)
    requires ValidShape(s) && |pages| == PageCount(s)
  {
    match content
    case None => Blank(pages)
    case Some(at) => at >= 0 && FrontClear(s, pages) && TailsHold(s, at, pages, Strips(s) * 8)
  }

  lemma HoldsClear(s: Shape, pages: seq<Tile>, content: Content)
    requires ValidShape(s) && |pages| == PageCount(s) && Holds(s, pages, content)
    ensures FrontClear(s, pages)
  {
    if content.None? {
      BlankIsClear(s, pages);
    }
  }

  /** `output` is a result of `execute` on accepted metadata. */
  ghost predicate Delivers<V(!new)>(attend: Attention<V>, query: seq<V>, metadata: seq<Workload>, output: seq<V>) {
    && AllShaped(metadata) && AllAccepted(metadata, |metadata|, |query| / 12)
    && Executed(attend, query, metadata, output)
  }

  /** The first output vector is that of the first group of the first bundle. */
  lemma FirstVector<V(!new)>(attend: Attention<V>, query: seq<V>, metadata: seq<Workload>, output: seq<V>)
    requires metadata != [] && Delivers(attend, query, metadata, output)
    ensures var w := metadata[0];
      && w.bundle != [] && Shaped(w) && Accepted(w.bundle, |query| / 12) && output != []
      && output[0] == MaskedHead(attend, query, w.bundle[0].offset, w.bundle[0].rows, w.mask[0], w.pages[0], w.chunk, 0)
  {
    var outs: seq<seq<seq<V>>> :|
      |outs| == |metadata| && BundlesDone(attend, query, metadata, outs) && output == Flat(Flat(outs));
    assert BundleDone(attend, query, metadata[0], outs[0]) && GroupDone(attend, query, metadata[0], 0, outs[0][0]);
    assert Flat(outs)[0] == outs[0][0];
  }

  /** The first mask row of blank pages shows every position. */
  lemma BlankRow(s: Shape, pages: seq<Tile>, position: nat)
    requires ValidShape(s) && |pages| == PageCount(s) && Blank(pages) && position < s.capacity
    ensures MaskRows(s, pages)[0][0][position] == 0
  {
    BlankEntry(s, pages, 0, 0, position);
  }

  lemma BlankEntry(s: Shape, pages: seq<Tile>, b: nat, h: nat, position: nat)
    requires ValidShape(s) && |pages| == PageCount(s) && Blank(pages)
    requires b < s.batches && h < s.rows * 12 && position < s.capacity
    ensures Entry(s, pages, b, h, position) == 0
  {
    ColumnInRange(s, position);
    var strip := StripOf(s, b, h);
    PageInRange(s, strip, position / 32);
    assert ZeroTile(pages[Page(s, strip, position / 32)]);
  }

  lemma ShortBundle(f: Family, maxRows: nat, table: seq<nat>, bundles: seq<Bundle>, start: int)
    requires Prepared(f, maxRows, table, bundles) && f.short && f.Admits(start)
    ensures |bundles| == 1 && bundles[0] != [] && bundles[0][0].offset == 0
    ensures f.capacity >= 0 && f.capacity % 64 == 0 && 0 <= start && start + 1 < f.capacity
  {
    ShortBundles(f.ladder, f.First(), f.rows, f.capacity, maxRows);
    WholePages(f.capacity);
  }

  /** Multiples of 256 positions are whole pages. */
  lemma WholePages(capacity: int)
    requires capacity % 256 == 0
    ensures capacity % 64 == 0
  {
    assert capacity == capacity / 256 * 4 * 64;
  }

  /** A blank mask row leaves every position of the capacity visible. */
  lemma BlankCells(s: Shape, pages: seq<Tile>, table: seq<nat>)
    requires ValidShape(s) && |pages| == PageCount(s) && Blank(pages) && s.capacity / 64 <= |table|
    ensures VisibleCells(MaskRows(s, pages)[0][0], table[..s.capacity / 64]) == CausalCells(s.capacity - 1, table)
  {
    WholePages(s.capacity);
    var row, pageTable := MaskRows(s, pages)[0][0], table[..s.capacity / 64];
    forall p: nat ensures p in VisibleCells(row, pageTable) <==> p in CausalCells(s.capacity - 1, table) {
      if p < s.capacity {
        BlankRow(s, pages, p);
        assert p / 64 < s.capacity / 64;
      }
    }
  }

  /** The first vector of `output` is attention to every position of the capacity. */
  ghost predicate Unmasked<V>(attend: Attention<V>, query: seq<V>, capacity: int, table: seq<nat>, output: seq<V>) {
    && query != [] && capacity > 0 && output != []
    && output[0] == attend(query[0], 0, CausalCells(capacity - 1, table), Signature(256, capacity))
  }

  /** With nothing hidden the first output vector attends every position of the capacity. */
  lemma BlankResult<V(!new)>(f: Family, maxRows: nat, table: seq<nat>, bundles: seq<Bundle>, start: int,
                             pages: seq<seq<Tile>>, contents: seq<Content>, attend: Attention<V>, query: seq<V>,
                             output: seq<V>)
    requires Prepared(f, maxRows, table, bundles) && f.Admits(start) && |query| == f.rows * 12
    requires f.short && AllHold(f, bundles, pages, contents) && contents == [None]
    requires Computes(f, table, bundles, pages, attend, query, output)
    ensures Unmasked(attend, query, f.capacity, table, output)
  {
    var metadata :| IsMetadata(f, table, bundles, pages, metadata) && Delivers(attend, query, metadata, output);
    assert BundleHolds(f, bundles[0], pages[0], contents[0]);
    assert IsWorkload(f, table, bundles[0], pages[0], metadata[0]);
    ShortBundle(f, maxRows, table, bundles, start);
    FirstVector(attend, query, metadata, output);
    BlankVector(f, table, bundles[0], pages[0], attend, query);
  }

  lemma BlankVector<V>(f: Family, table: seq<nat>, bundle: Bundle, pages: seq<Tile>, attend: Attention<V>,
                       query: seq<V>)
    requires f.capacity > 0 && f.capacity / 64 <= |table| && bundle != [] && ValidShape(ShapeOf(bundle, f.capacity))
    requires |pages| == PageCount(ShapeOf(bundle, f.capacity)) && Blank(pages)
    requires bundle[0].offset == 0 && bundle[0].rows * 12 <= |query|
    ensures var w := WorkloadOf(f, table, bundle, pages);
      MaskedHead(attend, query, 0, bundle[0].rows, w.mask[0], w.pages[0], w.chunk, 0) ==
      attend(query[0], 0, CausalCells(f.capacity - 1, table), Signature(256, f.capacity))
  {
    var w := WorkloadOf(f, table, bundle, pages);
    FirstMasked(attend, query, bundle[0].rows, w.mask[0], w.pages[0], w.chunk);
    BlankCells(ShapeOf(bundle, f.capacity), pages, table);
  }

  lemma FirstMasked<V>(attend: Attention<V>, query: seq<V>, count: nat, mask: seq<seq<nat>>, table: seq<nat>,
                       chunk: nat)
    requires count > 0 && count * 12 <= |query| && |mask| == count * 12
    ensures MaskedHead(attend, query, 0, count, mask, table, chunk, 0) ==
            attend(query[0], 0, VisibleCells(mask[0], table), Signature(chunk, |mask[0]|))
  {
    assert FoldedHead(count, 0) == 0;
  }

  /** What the pipeline gives under masks of known contents. */
  lemma PipelineMeans<V(!new)>(f: Family, maxRows: nat, table: seq<nat>, bundles: seq<Bundle>, start: int,
                               pages: seq<seq<Tile>>, contents: seq<Content>, attend: Attention<V>, query: seq<V>,
                               output: seq<V>)
    requires Prepared(f, maxRows, table, bundles) && f.Admits(start) && |query| == f.rows * 12
    requires AllHold(f, bundles, pages, contents) && Computes(f, table, bundles, pages, attend, query, output)
    ensures start >= 0
    ensures AllAt(contents, start) ==> output == Serial(attend, query, NativeTicket(start, f.rows, table), f.rows)
    ensures contents == [None] && f.short ==> Unmasked(attend, query, f.capacity, table, output)
  {
    if AllAt(contents, start) {
      CausalResult(f, maxRows, table, bundles, start, pages, contents, attend, query, output);
    }
    if contents == [None] && f.short {
      BlankResult(f, maxRows, table, bundles, start, pages, contents, attend, query, output);
    }
  }

  // ----- The reader

  /** `full_like(mask, 0.0)` in place. */
  method ZeroFill(mask: array<Tile>)
    modifies mask
    ensures Blank(mask[..])
  {
    var zero := seq(1024, _ => 0);
    for page := 0 to mask.Length
      invariant forall k :: 0 <= k < page ==> mask[k] == zero
    {
      mask[page] := zero;
    }
  }

  /** A zero mask of the bundle's shape. */
  ghost predicate BlankMask(capacity: int, bundle: Bundle, mask: array<Tile>)
    reads mask
  {
    && bundle != [] && capacity >= 0 && ValidShape(ShapeOf(bundle, capacity))
    && mask.Length == PageCount(ShapeOf(bundle, capacity)) && Blank(mask[..])
  }

  /** A bundle's zero mask and the checks of its `prepare`. */
  method NewMask(ladder: Ladder, bundle: Bundle, capacity: nat, short: bool) returns (r: Result<array<Tile>>)
    requires bundle != [] && ValidShape(ShapeOf(bundle, capacity))
    ensures r.Ok? <==> Preparable(ladder, bundle, capacity, short)
    ensures r.Ok? ==> fresh(r.value) && BlankMask(capacity, bundle, r.value)
  {
    var s := ShapeOf(bundle, capacity);
    var mask := new Tile[PageCount(s)](_ => seq(1024, _ => 0));
    ZeroFill(mask);
    r := if Preparable(ladder, bundle, capacity, short) then Ok(mask) else Raised;
  }

  predicate Plannable(f: Family, bundle: Bundle) {
    && f.capacity >= 0 && bundle != [] && ValidShape(ShapeOf(bundle, f.capacity))
    && Preparable(f.ladder, bundle, f.capacity, f.short)
  }

  /** The loop of `__init__`: it raises at a bundle that `prepare` refuses, and there is none. */
  method NewMasks(f: Family, bundles: seq<Bundle>) returns (r: Result<seq<array<Tile>>>)
    requires forall i :: 0 <= i < |bundles| ==> Plannable(f, bundles[i])
    ensures r.Ok? && |r.value| == |bundles| && fresh(r.value)
    ensures forall i :: 0 <= i < |bundles| ==> BlankMask(f.capacity, bundles[i], r.value[i])
    ensures forall i, j :: 0 <= i < |bundles| && 0 <= j < |bundles| && i != j ==> r.value[i] != r.value[j]
  {
    var masks: seq<array<Tile>> := [];
    for i := 0 to |bundles|
      invariant |masks| == i && fresh(masks)
      invariant forall j :: 0 <= j < i ==> BlankMask(f.capacity, bundles[j], masks[j])
      invariant forall j, k :: 0 <= j < i && 0 <= k < i && j != k ==> masks[j] != masks[k]
    {
      assert Plannable(f, bundles[i]);
      var mask := NewMask(f.ladder, bundles[i], f.capacity, f.short);
      masks := masks + [mask.value];
    }
    r := Ok(masks);
  }

  class ReplayAttentionReader {
    const family: Family
    const maxRows: nat
    const table: seq<nat>
    const bundles: seq<Bundle>
    const masks: seq<array<Tile>>
    var position: int
    var start: int
    var calls: nat
    var refreshCalls: nat
    var maskScope: Option<nat>
    var failed: bool
    var closed: bool
    ghost var contents: seq<Content>

    ghost predicate Fixed() {
      && Prepared(family, maxRows, table, bundles) && |masks| == |bundles|
      && (forall i :: 0 <= i < |bundles| ==> MaskFits(i))
      && (forall i, j :: 0 <= i < |masks| && 0 <= j < |masks| && i != j ==> masks[i] != masks[j])
    }

    ghost predicate MaskFits(i: nat)
      requires i < |bundles| == |masks|
    {
      && bundles[i] != [] && family.capacity >= 0 && ValidShape(ShapeOf(bundles[i], family.capacity))
      && masks[i].Length == PageCount(ShapeOf(bundles[i], family.capacity))
    }

    ghost predicate MaskIs(i: nat, content: Content)
      requires i < |bundles| == |masks| && MaskFits(i)
      reads masks[i]
    {
      Holds(ShapeOf(bundles[i], family.capacity), masks[i][..], content)
    }

    /** The pages of every mask. */
    ghost function Pages(): (pages: seq<seq<Tile>>)
      reads masks
    {
      seq(|masks|, i requires 0 <= i < |masks| reads masks => masks[i][..])
    }

    /** Every mask holds what `contents` says. */
    ghost predicate Known()
      reads this, masks
    {
      Fixed() && |contents| == |bundles| && forall i :: 0 <= i < |bundles| ==> MaskIs(i, contents[i])
    }

    /** The staged word on the device is the reader's start, and every mask holds what `contents` says. */
    ghost predicate Valid()
      reads this, masks
    {
      Known() && family.Admits(start) && (!failed ==> position == start)
    }

    ghost function Fields(): State
      reads this
    {
      State(start, calls, refreshCalls, maskScope, failed, closed, contents)
    }

    constructor (family: Family, maxRows: nat, table: seq<nat>, bundles: seq<Bundle>, masks: seq<array<Tile>>)
      requires Prepared(family, maxRows, table, bundles) && |masks| == |bundles|
      requires forall i :: 0 <= i < |bundles| ==> BlankMask(family.capacity, bundles[i], masks[i])
      requires forall i, j :: 0 <= i < |masks| && 0 <= j < |masks| && i != j ==> masks[i] != masks[j]
      ensures Valid() && Fields() == Opened(family)
      ensures this.family == family && this.maxRows == maxRows && this.table == table && this.masks == masks
    {
      this.family, this.maxRows, this.table, this.bundles, this.masks := family, maxRows, table, bundles, masks;
      position, start := family.First(), family.First();
      calls, refreshCalls, maskScope := 0, 0, None;
      failed, closed, contents := false, false, seq(|bundles|, _ => None);
      new;
      forall i | 0 <= i < |this.bundles| ensures MaskFits(i) && MaskIs(i, contents[i]) {
        assert BlankMask(family.capacity, bundles[i], masks[i]);
      }
    }

    /**
     * The checks of `__init__` and the zero masks of its loop; `prepare` accepts every bundle of an admitted family.
     */
    static method Open(ladder: Ladder, compactScratch: bool, rows: int, capacity: int, table: seq<nat>, maxRows: int,
                       short: bool) returns (r: Result<ReplayAttentionReader>)
      ensures r.Ok? <==>
        && rows in {8, 16, 32} && maxRows in {4, 8} && (short ==> maxRows == 4) && (maxRows == 8 ==> compactScratch)
        && ValidTicket(ladder, FamilyStart(capacity, short), rows, capacity, short) && capacity / 64 <= |table|
      ensures r.Ok? ==> r.value.Valid() && fresh(r.value) && fresh(r.value.masks)
      ensures r.Ok? ==> r.value.Fields() == Opened(r.value.family)
      ensures r.Ok? ==> r.value.table == table && r.value.maxRows == maxRows
      ensures r.Ok? ==> r.value.family == Family(ladder, rows, capacity, short, r.value.family.bundles)
    {
      if rows !in {8, 16, 32} || maxRows !in {4, 8} || (short && maxRows != 4) || (maxRows == 8 && !compactScratch) {
        return Raised;
      }
      var first := FamilyStart(capacity, short);
      var admitted := ValidateTicket(ladder, first, rows, capacity, short);
      if !admitted || |table| < capacity / 64 {
        return Raised;
      }
      var bundles := ParallelGroups(first, rows, 3, maxRows);
      var family := Family(ladder, rows, capacity, short, |bundles.value|);
      FamilyOpens(family, maxRows);
      forall i | 0 <= i < |bundles.value| ensures Plannable(family, bundles.value[i]) {
        PrepareAccepts(family, maxRows, i);
        PreparedBundle(family, maxRows, table, bundles.value, i);
      }
      var masks := NewMasks(family, bundles.value);
      var reader := new ReplayAttentionReader(family, maxRows, table, bundles.value, masks.value);
      r := Ok(reader);
    }

    method Stage(start: int, failure: StageFault, written: int) returns (outcome: Outcome)
      requires Valid()
      modifies this
      ensures Valid() && (Fields(), outcome) == StageStep(family, old(Fields()), start, failure)
    {
      if closed || failed {
        return Refused;
      }
      var admitted := ValidateTicket(family.ladder, start, family.rows, family.capacity, family.short);
      if !admitted || maskScope.Some? || failure.LayingOut? {
        return Refused;
      }
      if failure.Copying? {
        position := written;
        failed := true;
        return Refused;
      }
      position := start;
      this.start := start;
      outcome := Done;
    }

    method RefreshMasks(progress: Progress) returns (outcome: Outcome)
      requires Valid()
      modifies this`refreshCalls, this`contents, masks
      ensures Valid() && (Fields(), outcome) == RefreshStep(family, old(Fields()), progress)
    {
      if closed || failed {
        return Refused;
      }
      ghost var before := Fields();
      ghost var after := seq(family.bundles, j requires j >= 0 => ContentAfter(family, before, progress, j));
      outcome := Done;
      for i := 0 to |masks|
        invariant Known() && outcome.Done? && i <= progress.at && refreshCalls == before.refreshes + i
        invariant forall j :: 0 <= j < |bundles| ==> contents[j] == if j < i then Some(start) else before.masks[j]
      {
        RefreshMask(i, i == progress.at, progress.cleared);
        if i == progress.at {
          outcome := Refused;
          break;
        }
        refreshCalls := refreshCalls + 1;
      }
      assert contents == after;
    }

    /** One bundle: clear the mask first in short context, then rewrite its last 256 positions. */
    method RefreshMask(i: nat, fault: bool, cleared: bool)
      requires Known() && i < |masks| && position >= 0
      modifies this`contents, masks[i]
      ensures Known()
      ensures contents == if !fault then old(contents)[i := Some(position)]
                          else if family.short && cleared then old(contents)[i := None]
                          else old(contents)
    {
      assert MaskFits(i) && MaskIs(i, contents[i]);
      var s := ShapeOf(bundles[i], family.capacity);
      if family.short && (!fault || cleared) {
        ZeroFill(masks[i]);
        contents := contents[i := None];
      }
      if !fault {
        HoldsClear(s, masks[i][..], contents[i]);
        MaskReplay.Refresh(masks[i], s, position);
        contents := contents[i := Some(position)];
      }
    }

    /** Opening a shared-mask scope: the masks are refreshed once for its calls. */
    method Enter(expected: int, progress: Progress) returns (outcome: Outcome)
      requires Valid()
      modifies this, masks
      ensures Valid() && (Fields(), outcome) == EnterStep(family, old(Fields()), expected, progress)
    {
      if closed || failed || !(1 <= expected <= 16) || maskScope.Some? {
        return Refused;
      }
      maskScope := Some(calls + expected);
      outcome := RefreshMasks(progress);
      if outcome.Refused? {
        failed := true;
        maskScope := None;
      }
    }

    /** Leaving the scope, after its body ended or raised. */
    method Leave(raised: bool) returns (outcome: Outcome)
      requires Valid() && maskScope.Some?
      modifies this
      ensures Valid() && (Fields(), outcome) == LeaveStep(old(Fields()), raised)
    {
      if raised || calls != maskScope.value {
        failed := true;
        maskScope := None;
        return Refused;
      }
      maskScope := None;
      outcome := Done;
    }

    method Close() returns (outcome: Outcome)
      requires Valid()
      modifies this
      ensures Valid() && (Fields(), outcome) == CloseStep(old(Fields()))
    {
      if closed {
        return Done;
      }
      if maskScope.Some? {
        return Refused;
      }
      closed := true;
      outcome := Done;
    }

    /** The prepared metadata with the masks as they are now. */
    method Workloads() returns (metadata: seq<Workload>)
      requires Fixed()
      ensures IsMetadata(family, table, bundles, Pages(), metadata)
    {
      metadata := [];
      for i := 0 to |bundles|
        invariant |metadata| == i
        invariant forall j :: 0 <= j < i ==> IsWorkload(family, table, bundles[j], Pages()[j], metadata[j])
      {
        assert MaskFits(i);
        metadata := metadata + [WorkloadOf(family, table, bundles[i], masks[i][..])];
      }
    }

    /** The masks for a call, refreshed now or within the budget of an open scope; `fault` is any later failure. */
    method Ready(progress: Progress, fault: bool) returns (outcome: Outcome)
      requires Valid() && !closed && !failed
      modifies this, masks
      ensures Valid() && (Fields(), outcome) == ReadyStep(family, old(Fields()), progress, fault)
    {
      outcome := Done;
      if maskScope.None? {
        outcome := RefreshMasks(progress);
      } else if calls >= maskScope.value {
        outcome := Refused;
      }
      if outcome.Refused? || fault {
        failed, outcome := true, Refused;
      }
    }

    /**
     * A call returns, under causal masks at the staged start, the per-token results there. Under a blank
     * short-context mask its first vector attends every position of the capacity.
     */
    method Call<V(!new)>(attend: Attention<V>, query: seq<V>, progress: Progress, fault: bool)
      returns (ghost outcome: Outcome, result: Option<seq<V>>)
      requires Valid()
      modifies this, masks
      ensures Valid()
      ensures (Fields(), outcome) == CallStep(family, old(Fields()), |query| == family.rows * 12, progress, fault)
      ensures result.Some? <==> outcome.Returned?
      ensures outcome.Returned? ==> start >= 0 && |query| == family.rows * 12
      ensures outcome.Returned? && AllAt(outcome.masks, start) ==>
                result.value == Serial(attend, query, NativeTicket(start, family.rows, table), family.rows)
      ensures outcome == Returned([None]) && family.short ==>
                Unmasked(attend, query, family.capacity, table, result.value)
    {
      outcome, result := Refused, None;
      if !closed && !failed && |query| == family.rows * 12 {
        var ready := Ready(progress, fault);
        if ready.Done? {
          result := Attend(attend, query);
          outcome := Returned(contents);
        }
      }
    }

    /** The attention under the masks as they are, and the count of calls. */
    method Attend<V(!new)>(attend: Attention<V>, query: seq<V>) returns (result: Option<seq<V>>)
      requires Valid() && |query| == family.rows * 12
      modifies this`calls
      ensures Valid() && Fields() == old(Fields()).(calls := old(calls) + 1)
      ensures start >= 0 && result.Some?
      ensures AllAt(contents, start) ==>
                result.value == Serial(attend, query, NativeTicket(start, family.rows, table), family.rows)
      ensures contents == [None] && family.short ==> Unmasked(attend, query, family.capacity, table, result.value)
    {
      var output := Pipeline(attend, query);
      result := Some(output);
      Count();
    }

    /** `execute` on the prepared metadata. */
    method Pipeline<V(!new)>(attend: Attention<V>, query: seq<V>) returns (output: seq<V>)
      requires Valid() && |query| == family.rows * 12
      ensures start >= 0
      ensures AllAt(contents, start) ==>
                output == Serial(attend, query, NativeTicket(start, family.rows, table), family.rows)
      ensures contents == [None] && family.short ==> Unmasked(attend, query, family.capacity, table, output)
    {
      ghost var pages := Pages();
      var metadata := Workloads();
      MetadataFits(family, maxRows, table, bundles, pages, metadata);
      var result := Execute(attend, query, metadata);
      output := result.value;
      assert Delivers(attend, query, metadata, output);
      forall i | 0 <= i < |bundles| ensures BundleHolds(family, bundles[i], pages[i], contents[i]) {
        assert MaskFits(i) && MaskIs(i, contents[i]);
      }
      PipelineMeans(family, maxRows, table, bundles, start, pages, contents, attend, query, output);
    }

    method Count()
      requires Valid()
      modifies this`calls
      ensures Valid() && Fields() == old(Fields()).(calls := old(calls) + 1)
    {
      calls := calls + 1;
    }
  }

  /**
   * A caller that swallows the exception of its own refresh inside a scope gets the per-token results anyway, unless
   * the refresh had cleared the short-context mask; then nothing is hidden.
   */
  method SwallowedRefresh<V(!new)>(reader: ReplayAttentionReader, attend: Attention<V>, query: seq<V>,
                                   progress: Progress) returns (result: Option<seq<V>>)
    requires reader.Valid() && !reader.failed && !reader.closed && reader.maskScope.None?
    requires |query| == reader.family.rows * 12
    modifies reader, reader.masks
    ensures reader.Valid() && reader.start == old(reader.start) >= 0 && result.Some?
    ensures if reader.family.short && progress.at == 0 && progress.cleared
            then Unmasked(attend, query, reader.family.capacity, reader.table, result.value)
            else result.value == Serial(attend, query, NativeTicket(reader.start, reader.family.rows, reader.table),
                                        reader.family.rows)
  {
    SwallowedStep(reader.family, reader.Fields(), progress);
    var entered := reader.Enter(1, Progress(|reader.masks|, false));
    var swallowed := reader.RefreshMasks(progress);
    ghost var outcome: Outcome;
    outcome, result := reader.Call(attend, query, Progress(0, false), false);
  }

  type Cells = map<nat, Cell>

  /** The attention that returns the cells it sees. */
  function CellsSeen(query: Cells, kv: nat, cells: Cells, signature: Signature): Cells {
    cells
  }

  /** Past the start there is a position of the capacity, so an unmasked result is not the per-token one. */
  lemma UnmaskedDiffers(f: Family, table: seq<nat>, start: int, query: seq<Cells>, output: seq<Cells>)
    requires f.short && f.Admits(start) && f.capacity / 64 <= |table| && |query| == f.rows * 12
    requires Unmasked(CellsSeen, query, f.capacity, table, output)
    ensures start >= 0 && output != Serial(CellsSeen, query, NativeTicket(start, f.rows, table), f.rows)
  {
    WholePages(f.capacity);
    assert start + 1 in output[0] && start + 1 !in CausalCells(start, table);
  }

  /** The attention that returns the cells it sees tells the two apart at every start and for every query. */
  method SwallowedRefreshShows(reader: ReplayAttentionReader, query: seq<Cells>, progress: Progress)
    returns (result: Option<seq<Cells>>)
    requires reader.Valid() && !reader.failed && !reader.closed && reader.maskScope.None?
    requires |query| == reader.family.rows * 12
    modifies reader, reader.masks
    ensures reader.start == old(reader.start) >= 0 && result.Some?
    ensures result.value == Serial(CellsSeen, query, NativeTicket(reader.start, reader.family.rows, reader.table),
                                   reader.family.rows) <==>
            !(reader.family.short && progress.at == 0 && progress.cleared)
  {
    result := SwallowedRefresh(reader, CellsSeen, query, progress);
    if reader.family.short && progress.at == 0 && progress.cleared {
      UnmaskedDiffers(reader.family, reader.table, reader.start, query, result.value);
    }
  }
}
