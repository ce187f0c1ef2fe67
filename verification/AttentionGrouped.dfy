/** The static-position grouped reader (scripts/ci/attention_grouped.py), with `causal_mask`. */
module AttentionGrouped {
  import opened Arithmetic
  import opened AttentionEquivalence
  import opened AttentionParallel
  import opened ChunkGroups
  import opened MaskReplay
  import opened Results
  import opened SerialAttention

  /** `causal_mask`. */
  method CausalMaskOf(rows: int, start: int, capacity: int) returns (r: Result<seq<seq<nat>>>)
    ensures r.Ok? <==> 1 <= rows <= 32 && start >= 0 && start + rows <= capacity
    ensures r.Ok? ==> CausalMask(r.value, start, rows, capacity)
  {
    if !(1 <= rows <= 32) || start < 0 || start + rows > capacity {
      return Raised;
    }
    var positions := CausalPositions(rows, start);
    CausalPositionsByHead(rows, start, 0);
    var mask: seq<seq<nat>> := [];
    for q := 0 to rows * 12
      invariant |mask| == q
      invariant forall h :: 0 <= h < q ==> |mask[h]| == capacity && CausalRow(mask[h], TokenPosition(start, rows, h))
    {
      CausalPositionsByHead(rows, start, q);
      TokenInGroup(rows, q);
      var row := MaskRow(positions[q], capacity);
      mask := mask + [row];
    }
    r := Ok(mask);
  }

  function MaskRow(position: int, capacity: nat): (row: seq<nat>)
    ensures |row| == capacity
    ensures forall p :: 0 <= p < capacity ==> row[p] == if p > position then HIDDEN else 0
  {
    seq(capacity, p => if p > position then HIDDEN else 0)
  }

  lemma TokenInGroup(rows: nat, head: nat)
    requires rows > 0 && head < rows * 12
    ensures Remainder(head, rows * 6) / 6 < rows
  {
  }

  /** The capacity of a position's signature lies beyond the position. */
  lemma CapacityCovers(position: nat, maxTiles: nat)
    requires maxTiles > 0
    ensures SignatureOf(position, maxTiles).capacity > position
  {
    var chunk := ChunkSize(position, maxTiles);
    Divided(position + chunk, chunk);
  }

  // ----- Metadata

  /** Whole pages of the table cover the capacity of every group. */
  predicate PagesCover(groups: seq<Group>, n: nat, table: seq<nat>)
    requires n <= |groups|
  {
    forall i :: 0 <= i < n ==> GroupPaged(groups[i], table)
  }

  predicate GroupPaged(group: Group, table: seq<nat>) {
    group.signature.capacity % 64 == 0 && group.signature.capacity / 64 <= |table|
  }

  /** A group of a native ticket fits below its own capacity, so its mask can be built. */
  lemma GroupBelowCapacity(ticket: Ticket, group: Group)
    requires ticket == NativeTicket(ticket.start, ticket.Rows(), ticket.table)
    requires group.rows > 0 && GroupOfTicket(ticket, group)
    ensures ticket.start + group.offset + group.rows <= group.signature.capacity
  {
    assert TokenSigned(ticket, group, group.rows - 1);
    CapacityCovers(ticket.start + group.offset + group.rows - 1, 8);
  }

  /** A bundle ready for its workload: between one and three groups of one shape, in their place, on whole pages. */
  predicate BundleReady(ticket: Ticket, bundle: Bundle) {
    && ticket == NativeTicket(ticket.start, ticket.Rows(), ticket.table)
    && BundleFits(bundle, 3) && BundlePlaced(ticket, bundle)
    && forall b :: 0 <= b < |bundle| ==> 1 <= bundle[b].rows <= 8 && GroupPaged(bundle[b], ticket.table)
  }

  /** The page tables, stacked causal masks and chunk size of one bundle. */
  method BundleWorkload(ticket: Ticket, bundle: Bundle) returns (w: Workload)
    requires BundleReady(ticket, bundle)
    ensures w.bundle == bundle && Served(w, ticket)
  {
    var signature := bundle[0].signature;
    var pages: seq<seq<nat>> := [];
    var mask: seq<seq<seq<nat>>> := [];
    for b := 0 to |bundle|
      invariant |pages| == |mask| == b
      invariant forall i :: 0 <= i < b ==> pages[i] == ticket.table[..signature.capacity / 64]
      invariant forall i :: 0 <= i < b ==>
                  CausalMask(mask[i], ticket.start + bundle[i].offset, bundle[i].rows, signature.capacity)
    {
      GroupBelowCapacity(ticket, bundle[b]);
      var part := CausalMaskOf(bundle[b].rows, ticket.start + bundle[b].offset, signature.capacity);
      pages := pages + [ticket.table[..signature.capacity / 64]];
      mask := mask + [part.value];
    }
    w := Workload(bundle, pages, mask, signature.chunk);
    forall b | 0 <= b < |bundle| ensures GroupServed(w, b, ticket) {
    }
  }

  /** The bundles of a reader: equal groups together when parallel, one group each otherwise. */
  function ReaderBundles(ticket: Ticket, parallel: bool, maxRows: nat): (bundles: seq<Bundle>) {
    var groups := GroupsOf(ticket.signatures, ticket.Rows(), maxRows);
    BundlesOf(groups, |groups|, if parallel then 3 else 1)
  }

  lemma ReaderBundlesReady(ticket: Ticket, parallel: bool, maxRows: nat)
    requires maxRows in {4, 8} && ticket == NativeTicket(ticket.start, ticket.Rows(), ticket.table)
    requires var groups := GroupsOf(ticket.signatures, ticket.Rows(), maxRows);
      PagesCover(groups, |groups|, ticket.table)
    ensures Joined(ReaderBundles(ticket, parallel, maxRows)) == GroupsOf(ticket.signatures, ticket.Rows(), maxRows)
    ensures forall i :: 0 <= i < |ReaderBundles(ticket, parallel, maxRows)| ==>
              BundleReady(ticket, ReaderBundles(ticket, parallel, maxRows)[i])
  {
    var groups := GroupsOf(ticket.signatures, ticket.Rows(), maxRows);
    var bundles := ReaderBundles(ticket, parallel, maxRows);
    BundlesKeepGroups(groups, |groups|, if parallel then 3 else 1);
    assert groups[..|groups|] == groups;
    forall i | 0 <= i < |bundles| ensures BundleFits(bundles[i], 3) {
      assert BundleFits(bundles[i], if parallel then 3 else 1);
    }
    forall i | 0 <= i < |bundles| ensures BundleReady(ticket, bundles[i]) {
      ReaderBundleReady(ticket, bundles, maxRows, i);
    }
  }

  lemma ReaderBundleReady(ticket: Ticket, bundles: seq<Bundle>, maxRows: nat, i: nat)
    requires maxRows in {4, 8} && ticket == NativeTicket(ticket.start, ticket.Rows(), ticket.table)
    requires Joined(bundles) == GroupsOf(ticket.signatures, ticket.Rows(), maxRows)
    requires PagesCover(Joined(bundles), |Joined(bundles)|, ticket.table)
    requires AllBundlesFit(bundles, 3) && i < |bundles|
    ensures BundleReady(ticket, bundles[i])
  {
    assert BundleFits(bundles[i], 3);
    JoinedSplit(bundles, i);
    forall b | 0 <= b < |bundles[i]|
      ensures 1 <= bundles[i][b].rows <= 8 && GroupOfTicket(ticket, bundles[i][b]) &&
                GroupPaged(bundles[i][b], ticket.table)
      ensures bundles[i][b].offset == bundles[i][0].offset + At(b, bundles[i][0].rows)
    {
      BundleGroups(bundles, ticket, maxRows, i, b);
      var j := |Joined(bundles[..i])| + b;
      assert Joined(bundles)[j] == (Joined(bundles[..i]) + bundles[i])[j] == bundles[i][b];
      assert GroupPaged(Joined(bundles)[j], ticket.table);
    }
  }

  /** The metadata loop of the constructor. */
  method GroupedMetadata(ticket: Ticket, parallel: bool, maxRows: nat) returns (metadata: seq<Workload>)
    requires maxRows in {4, 8} && ticket == NativeTicket(ticket.start, ticket.Rows(), ticket.table)
    requires var groups := GroupsOf(ticket.signatures, ticket.Rows(), maxRows);
      PagesCover(groups, |groups|, ticket.table)
    ensures Serves(metadata, ticket, maxRows)
  {
    ReaderBundlesReady(ticket, parallel, maxRows);
    var bundles := ReaderBundles(ticket, parallel, maxRows);
    metadata := BundleWorkloads(ticket, bundles);
    assert Bundles(metadata) == bundles;
    forall i | 0 <= i < |bundles| ensures BundleFits(bundles[i], 3) {
      assert BundleReady(ticket, bundles[i]);
    }
  }

  /** One workload for each bundle. */
  method BundleWorkloads(ticket: Ticket, bundles: seq<Bundle>) returns (metadata: seq<Workload>)
    requires forall i :: 0 <= i < |bundles| ==> BundleReady(ticket, bundles[i])
    ensures |metadata| == |bundles|
    ensures forall i :: 0 <= i < |bundles| ==> metadata[i].bundle == bundles[i] && Served(metadata[i], ticket)
  {
    metadata := [];
    for i := 0 to |bundles|
      invariant |metadata| == i
      invariant forall j :: 0 <= j < i ==> metadata[j].bundle == bundles[j] && Served(metadata[j], ticket)
    {
      var w := BundleWorkload(ticket, bundles[i]);
      metadata := metadata + [w];
    }
  }

  // ----- The reader

  /** The singleton positions of a ticket's tokens. */
  function Positions(ticket: Ticket): (positions: seq<nat>)
    ensures |positions| == ticket.Rows() && forall i :: 0 <= i < ticket.Rows() ==> positions[i] == ticket.start + i
  {
    seq(ticket.Rows(), (i: nat) => ticket.start + i)
  }

  /** The same page table for every token. */
  function Tables(ticket: Ticket): (tables: seq<seq<nat>>)
    ensures |tables| == ticket.Rows() && forall i :: 0 <= i < ticket.Rows() ==> tables[i] == ticket.table
  {
    seq(ticket.Rows(), _ => ticket.table)
  }

  lemma TokenSignature(ticket: Ticket, i: nat)
    requires ticket == NativeTicket(ticket.start, ticket.Rows(), ticket.table) && i < ticket.Rows()
    ensures ticket.signatures[i] == SignatureOf(ticket.start + i, 8)
  {
  }

  class GroupedAttentionReader {
    const ticket: Ticket
    const maxRows: nat
    const native: SerialAttentionReader
    const metadata: seq<Workload>
    var calls: nat

    ghost predicate Valid()
      reads this, native
    {
      && maxRows in {4, 8} && ticket == NativeTicket(ticket.start, ticket.Rows(), ticket.table)
      && native.Valid() && |native.positions| == ticket.Rows()
      && (forall i :: 0 <= i < ticket.Rows() ==> RowIs(ticket, native.positions, native.pages, i))
      && (ticket.Rows() >= 8 ==> Serves(metadata, ticket, maxRows))
    }

    constructor (ticket: Ticket, maxRows: nat, metadata: seq<Workload>)
      requires maxRows in {4, 8} && ticket == NativeTicket(ticket.start, ticket.Rows(), ticket.table)
      requires ticket.Rows() in {1, 2, 4, 8, 16, 32}
      requires ticket.Rows() >= 8 ==> Serves(metadata, ticket, maxRows)
      ensures Valid() && fresh(native) && this.ticket == ticket && calls == 0
    {
      this.ticket := ticket;
      this.maxRows := maxRows;
      this.metadata := metadata;
      native := new SerialAttentionReader(Positions(ticket), Tables(ticket));
      calls := 0;
      new;
      forall i | 0 <= i < ticket.Rows() ensures RowIs(ticket, native.positions, native.pages, i) {
        TokenSignature(ticket, i);
      }
    }

    /** The constructor's checks, in order. */
    static method Open(start: nat, rows: nat, table: seq<nat>, dmaLayout: bool, parallel: bool, maxRows: nat)
      returns (r: Result<GroupedAttentionReader>)
      ensures r.Ok? <==>
        && (parallel ==> dmaLayout) && maxRows in {4, 8} && (maxRows == 8 ==> parallel)
        && rows in {1, 2, 4, 8, 16, 32}
        && (rows >= 8 ==> var groups := TicketGroups(start, rows, 8, maxRows); PagesCover(groups, |groups|, table))
      ensures r.Ok? ==> r.value.Valid() && fresh(r.value) && fresh(r.value.native) &&
                        r.value.ticket == NativeTicket(start, rows, table)
    {
      if (parallel && !dmaLayout) || maxRows !in {4, 8} || (maxRows == 8 && !parallel) {
        return Raised;
      }
      if rows !in {1, 2, 4, 8, 16, 32} {
        return Raised;
      }
      var ticket := NativeTicket(start, rows, table);
      var metadata: seq<Workload> := [];
      if rows >= 8 {
        var groups := ChunkGroupsOf(start, rows, 8, maxRows);
        for i := 0 to |groups.value|
          invariant PagesCover(groups.value, i, table)
        {
          var capacity := groups.value[i].signature.capacity;
          if capacity % 64 != 0 || capacity / 64 > |table| {
            assert !GroupPaged(groups.value[i], table);
            return Raised;
          }
        }
        metadata := GroupedMetadata(ticket, parallel, maxRows);
      }
      var reader := new GroupedAttentionReader(ticket, maxRows, metadata);
      r := Ok(reader);
    }

    /** Every call returns the per-token causal results at the reader's positions. */
    method Call<V(!new)>(attend: Attention<V>, query: seq<V>) returns (r: Result<seq<V>>)
      requires Valid()
      modifies this, native
      ensures Valid()
      ensures r.Ok? <==> |query| == ticket.Rows() * 12
      ensures r.Ok? ==> r.value == Serial(attend, query, ticket, ticket.Rows())
      ensures calls == old(calls) + (if r.Ok? then 1 else 0)
    {
      var rows := ticket.Rows();
      if |query| != rows * 12 {
        return Raised;
      }
      calls := calls + 1;
      if rows == 1 {
        TokensAreSerial(attend, query, ticket, native.positions, native.pages, 1);
        assert query[0..12] == query;
        r := Ok(TokenAttention(attend, query, 6, native.pages[0], native.positions[0]));
      } else if rows < 8 {
        TokensAreSerial(attend, query, ticket, native.positions, native.pages, rows);
        r := native.Call(attend, query, 12, 6);
      } else {
        ServedIsShaped(metadata, ticket, maxRows);
        r := Execute(attend, query, metadata);
        GroupedAttentionIsSerial(attend, query, ticket, maxRows, metadata, r.value);
      }
    }
  }
}
