/**
 * Grouped attention is per-token attention: the metadata of the grouped readers makes `execute` compute the results of
 * `SerialAttentionReader`.
 */
module AttentionEquivalence {
  import opened Arithmetic
  import opened AttentionParallel
  import opened ChunkGroups
  import opened HeadFold
  import opened MaskReplay
  import opened SerialAttention

  /** Exactly the positions up to `position` are visible. */
  predicate CausalRow(row: seq<nat>, position: nat) {
    position < |row| && forall p :: 0 <= p < |row| ==> row[p] == if p > position then HIDDEN else 0
  }

  /** The mask of a group whose first token is at `first`, over `capacity` positions. */
  predicate CausalMask(mask: seq<seq<nat>>, first: nat, count: nat, capacity: nat)
    requires count > 0
  {
    |mask| == count * 12 &&
    forall q :: 0 <= q < count * 12 ==> |mask[q]| == capacity && CausalRow(mask[q], TokenPosition(first, count, q))
  }

  /** A causal mask row over whole pages of the table sees the same cells as causal attention on the full table. */
  lemma CausalRowCells(row: seq<nat>, position: nat, table: seq<nat>)
    requires CausalRow(row, position) && |row| % 64 == 0 && |row| / 64 <= |table|
    ensures VisibleCells(row, table[..|row| / 64]) == CausalCells(position, table)
  {
    var masked, causal := VisibleCells(row, table[..|row| / 64]), CausalCells(position, table);
    forall p: nat ensures p in masked <==> p in causal {
      if p < |row| {
        assert p / 64 < |row| / 64;
      }
    }
  }

  /** Under its causal mask, folded head `q` of a group sees what causal attention at its own token sees. */
  lemma MaskRowCells(mask: seq<seq<nat>>, first: nat, count: nat, capacity: nat, table: seq<nat>, k: nat)
    requires count > 0 && k < count * 12 && CausalMask(mask, first, count, capacity)
    requires capacity % 64 == 0 && capacity / 64 <= |table|
    ensures FoldedHead(count, k) < |mask| && |mask[FoldedHead(count, k)]| == capacity
    ensures VisibleCells(mask[FoldedHead(count, k)], table[..capacity / 64]) == CausalCells(first + k / 12, table)
  {
    FoldedHeadPosition(first, count, k);
    CausalRowCells(mask[FoldedHead(count, k)], first + k / 12, table);
  }

  /** Output vector `k` of a masked group is that of causal attention on its own token. */
  lemma MaskedHeadIsSerial<V>(attend: Attention<V>, query: seq<V>, ticket: Ticket, group: Group,
                              mask: seq<seq<nat>>, pages: seq<nat>, k: nat)
    requires group.rows > 0 && (group.offset + group.rows) * 12 <= |query| && k < group.rows * 12
    requires CausalMask(mask, ticket.start + group.offset, group.rows, group.signature.capacity)
    requires group.signature.capacity % 64 == 0 && group.signature.capacity / 64 <= |ticket.table|
    requires pages == ticket.table[..group.signature.capacity / 64]
    requires group.offset + group.rows <= ticket.Rows() && ticket.signatures[group.offset + k / 12] == group.signature
    ensures MaskedHead(attend, query, group.offset, group.rows, mask, pages, group.signature.chunk, k) ==
            SerialHead(attend, query, ticket, group.offset * 12 + k)
  {
    MaskRowCells(mask, ticket.start + group.offset, group.rows, group.signature.capacity, ticket.table, k);
    HeadOfGroup(group.offset, k);
    var q, row := group.offset * 12 + k, mask[FoldedHead(group.rows, k)];
    assert Signature(group.signature.chunk, |row|) == group.signature == ticket.signatures[q / 12];
    assert CausalCells(ticket.start + q / 12, ticket.table) == VisibleCells(row, pages);
  }

  lemma HeadOfGroup(offset: nat, k: nat)
    ensures (offset * 12 + k) / 12 == offset + k / 12 && (offset * 12 + k) % 12 == k % 12
  {
  }

  /** Consecutive token ranges join. */
  lemma SerialJoins<V>(attend: Attention<V>, query: seq<V>, ticket: Ticket, offset: nat, count: nat,
                       out: seq<V>)
    requires (offset + count) * 12 <= |query| && |out| == count * 12
    requires offset + count <= ticket.Rows()
    requires forall k :: 0 <= k < count * 12 ==> out[k] == SerialHead(attend, query, ticket, offset * 12 + k)
    ensures Serial(attend, query, ticket, offset) + out == Serial(attend, query, ticket, offset + count)
  {
    var whole := Serial(attend, query, ticket, offset + count);
    forall i | offset * 12 <= i < (offset + count) * 12 ensures out[i - offset * 12] == whole[i] {
      var k := i - offset * 12;
      assert out[k] == SerialHead(attend, query, ticket, offset * 12 + k);
    }
  }

  // ----- Grouped attention is per-token attention

  function Bundles(metadata: seq<Workload>): (bundles: seq<Bundle>)
    ensures |bundles| == |metadata|
    ensures forall i :: 0 <= i < |bundles| ==> bundles[i] == metadata[i].bundle
  {
    seq(|metadata|, (i: nat) requires i < |metadata| => metadata[i].bundle)
  }

  /** Group `b` of a workload has its causal mask, the pages its capacity covers and its native chunk size. */
  predicate GroupServed(w: Workload, b: nat, ticket: Ticket)
    requires b < |w.bundle|
  {
    var group := w.bundle[b];
    && Shaped(w) && group.rows > 0 && w.chunk == group.signature.chunk
    && CausalMask(w.mask[b], ticket.start + group.offset, group.rows, group.signature.capacity)
    && group.signature.capacity % 64 == 0 && group.signature.capacity / 64 <= |ticket.table|
    && w.pages[b] == ticket.table[..group.signature.capacity / 64]
  }

  predicate Served(w: Workload, ticket: Ticket) {
    Shaped(w) && forall b :: 0 <= b < |w.bundle| ==> GroupServed(w, b, ticket)
  }

  /** Metadata for a ticket: bundles of at most three groups that join to the ticket's groups. */
  predicate Serves(metadata: seq<Workload>, ticket: Ticket, maxRows: nat) {
    && Joined(Bundles(metadata)) == GroupsOf(ticket.signatures, ticket.Rows(), maxRows)
    && AllBundlesFit(Bundles(metadata), 3)
    && forall i :: 0 <= i < |metadata| ==> Served(metadata[i], ticket)
  }

  /** Two consecutive steps from one prefix to the next. */
  lemma Chained<T>(p: seq<T>, x: seq<T>, q: seq<T>, y: seq<T>, r: seq<T>)
    requires p + x == q && q + y == r
    ensures p + (x + y) == r
  {
  }

  /** Token `t` of a group has the group's native signature. */
  predicate TokenSigned(ticket: Ticket, group: Group, t: nat) {
    group.offset + t < ticket.Rows() && ticket.signatures[group.offset + t] == group.signature
  }

  /** A group of the ticket's tokens, all with its signature. */
  predicate GroupOfTicket(ticket: Ticket, group: Group) {
    group.offset + group.rows <= ticket.Rows() && forall t :: 0 <= t < group.rows ==> TokenSigned(ticket, group, t)
  }

  /** A served bundle in its place: its groups belong to the ticket and follow each other. */
  predicate BundlePlaced(ticket: Ticket, bundle: Bundle) {
    forall b :: 0 <= b < |bundle| ==> GroupOfTicket(ticket, bundle[b]) &&
                                      bundle[b].offset == bundle[0].offset + At(b, bundle[0].rows)
  }

  /** The serial results of the first `n` tokens. */
  function UpTo<V>(attend: Attention<V>, query: seq<V>, ticket: Ticket, n: nat): seq<V>
    requires |query| == ticket.Rows() * 12
  {
    if n <= ticket.Rows() then Serial(attend, query, ticket, n) else []
  }

  /** One served group: all of its output vectors. */
  lemma ServedGroupOutput<V>(attend: Attention<V>, query: seq<V>, ticket: Ticket, w: Workload,
                             b: nat, out: seq<V>)
    requires |query| == ticket.Rows() * 12 && b < |w.bundle| && GroupServed(w, b, ticket) &&
               Accepted(w.bundle, ticket.Rows())
    requires GroupOfTicket(ticket, w.bundle[b]) && GroupDone(attend, query, w, b, out)
    ensures Serial(attend, query, ticket, w.bundle[b].offset) + out ==
            Serial(attend, query, ticket, w.bundle[b].offset + w.bundle[0].rows)
  {
    var group := w.bundle[b];
    forall k | 0 <= k < group.rows * 12
      ensures out[k] == SerialHead(attend, query, ticket, group.offset * 12 + k)
    {
      assert TokenSigned(ticket, group, k / 12);
      MaskedHeadIsSerial(attend, query, ticket, group, w.mask[b], w.pages[b], k);
    }
    SerialJoins(attend, query, ticket, group.offset, group.rows, out);
  }

  /** `out` takes the serial results from token `first` to token `last`. */
  ghost predicate Advances<V>(attend: Attention<V>, query: seq<V>, ticket: Ticket, first: nat, last: nat, out: seq<V>)
    requires |query| == ticket.Rows() * 12
  {
    UpTo(attend, query, ticket, first) + out == UpTo(attend, query, ticket, last)
  }

  lemma AdvancesChain<V>(attend: Attention<V>, query: seq<V>, ticket: Ticket, a: nat, b: nat, c: nat, x: seq<V>,
                         y: seq<V>)
    requires |query| == ticket.Rows() * 12
    requires Advances(attend, query, ticket, a, b, x) && Advances(attend, query, ticket, b, c, y)
    ensures Advances(attend, query, ticket, a, c, x + y)
  {
    Chained(UpTo(attend, query, ticket, a), x, UpTo(attend, query, ticket, b), y, UpTo(attend, query, ticket, c));
  }

  /** Output `b` of a run of groups of `count` tokens from token `offset` on. */
  ghost predicate GroupAdvances<V>(attend: Attention<V>, query: seq<V>, ticket: Ticket, offset: nat, count: nat,
                                   outs: seq<seq<V>>, b: nat)
    requires |query| == ticket.Rows() * 12 && b < |outs|
  {
    Advances(attend, query, ticket, offset + At(b, count), offset + At(b + 1, count), outs[b])
  }

  /** The first `n` groups of a bundle. */
  lemma {:induction false} BundleAdvances<V>(attend: Attention<V>, query: seq<V>, ticket: Ticket, offset: nat,
                                             count: nat,
                                             outs: seq<seq<V>>, n: nat)
    requires |query| == ticket.Rows() * 12 && n <= |outs|
    requires forall b :: 0 <= b < |outs| ==> GroupAdvances(attend, query, ticket, offset, count, outs, b)
    ensures Advances(attend, query, ticket, offset, offset + At(n, count), Flat(outs[..n]))
  {
    if n > 0 {
      BundleAdvances(attend, query, ticket, offset, count, outs, n - 1);
      NextAdvances(attend, query, ticket, offset, count, outs, n - 1);
    } else {
      assert outs[..0] == [];
      NothingAdvances(attend, query, ticket, offset);
    }
  }

  lemma NothingAdvances<V>(attend: Attention<V>, query: seq<V>, ticket: Ticket, first: nat)
    requires |query| == ticket.Rows() * 12
    ensures Advances(attend, query, ticket, first, first, [])
  {
    var before := UpTo(attend, query, ticket, first);
    assert before + [] == before;
  }

  lemma NextAdvances<V>(attend: Attention<V>, query: seq<V>, ticket: Ticket, offset: nat, count: nat, outs: seq<seq<V>>,
                        n: nat)
    requires |query| == ticket.Rows() * 12 && n < |outs| && GroupAdvances(attend, query, ticket, offset, count, outs, n)
    requires Advances(attend, query, ticket, offset, offset + At(n, count), Flat(outs[..n]))
    ensures Advances(attend, query, ticket, offset, offset + At(n + 1, count), Flat(outs[..n + 1]))
  {
    FlatExtend(outs, n);
    AdvancesChain(attend, query, ticket, offset, offset + At(n, count), offset + At(n + 1, count), Flat(outs[..n]),
                  outs[n]);
  }

  lemma GroupLink<V>(attend: Attention<V>, query: seq<V>, ticket: Ticket, w: Workload, outs: seq<seq<V>>, b: nat)
    requires Served(w, ticket) && Accepted(w.bundle, ticket.Rows()) && |query| == ticket.Rows() * 12
    requires BundlePlaced(ticket, w.bundle) && BundleDone(attend, query, w, outs) && b < |outs|
    ensures GroupAdvances(attend, query, ticket, w.bundle[0].offset, w.bundle[0].rows, outs, b)
  {
    assert GroupOfTicket(ticket, w.bundle[b]) && GroupServed(w, b, ticket);
    assert GroupDone(attend, query, w, b, outs[b]);
    ServedGroupOutput(attend, query, ticket, w, b, outs[b]);
    OutputAdvances(attend, query, ticket, w.bundle[0].offset, w.bundle[0].rows, w.bundle[b].offset, outs, b);
  }

  lemma OutputAdvances<V>(attend: Attention<V>, query: seq<V>, ticket: Ticket, offset: nat, count: nat, first: nat,
                          outs: seq<seq<V>>, b: nat)
    requires |query| == ticket.Rows() * 12 && b < |outs|
    requires first == offset + At(b, count) && first + count <= ticket.Rows()
    requires Serial(attend, query, ticket, first) + outs[b] == Serial(attend, query, ticket, first + count)
    ensures GroupAdvances(attend, query, ticket, offset, count, outs, b)
  {
    assert offset + At(b + 1, count) == first + count;
    assert Advances(attend, query, ticket, first, first + count, outs[b]);
  }

  lemma {:induction false} JoinedPrefix(bundles: seq<Bundle>, i: nat)
    requires i < |bundles|
    ensures Joined(bundles[..i + 1]) == Joined(bundles[..i]) + bundles[i]
  {
    assert bundles[..i + 1][..i] == bundles[..i];
  }

  /** Where the next bundle starts. */
  lemma NextBundleOffset(bundles: seq<Bundle>, i: nat)
    requires i < |bundles| && BundleFits(bundles[i], 3)
    ensures BundleOffset(bundles, i + 1) == BundleOffset(bundles, i) + At(|bundles[i]|, bundles[i][0].rows)
  {
    JoinedPrefix(bundles, i);
    CoveredSum(Joined(bundles[..i]), bundles[i], |bundles[i]|);
    CoveredUniform(bundles[i], bundles[i][0].rows, |bundles[i]|);
  }

  /** The ticket's groups follow each other. */
  lemma TicketContiguous(ticket: Ticket, maxRows: nat)
    requires maxRows > 0
    ensures Contiguous(GroupsOf(ticket.signatures, ticket.Rows(), maxRows))
  {
    GroupsPartitionTokens(ticket.signatures, ticket.Rows(), maxRows);
    var groups := GroupsOf(ticket.signatures, ticket.Rows(), maxRows);
    forall j | 0 <= j < |groups| ensures groups[j].offset == Covered(groups, j) {
      assert GroupFits(groups, j, ticket.signatures, maxRows);
    }
  }

  lemma TicketGroup(ticket: Ticket, maxRows: nat, j: nat)
    requires maxRows > 0 && j < |GroupsOf(ticket.signatures, ticket.Rows(), maxRows)|
    ensures var group := GroupsOf(ticket.signatures, ticket.Rows(), maxRows)[j];
      1 <= group.rows <= maxRows && GroupOfTicket(ticket, group)
  {
    GroupsPartitionTokens(ticket.signatures, ticket.Rows(), maxRows);
    var groups := GroupsOf(ticket.signatures, ticket.Rows(), maxRows);
    assert GroupFits(groups, j, ticket.signatures, maxRows);
    forall t | 0 <= t < groups[j].rows ensures TokenSigned(ticket, groups[j], t) {
      assert ticket.signatures[groups[j].offset + t] == groups[j].signature;
    }
  }

  /** Every group of every bundle is a group of the ticket, in its place. */
  lemma BundleGroups(bundles: seq<Bundle>, ticket: Ticket, maxRows: nat, i: nat, b: nat)
    requires 0 < maxRows <= 8 && Joined(bundles) == GroupsOf(ticket.signatures, ticket.Rows(), maxRows)
    requires AllBundlesFit(bundles, 3) && i < |bundles| && b < |bundles[i]|
    ensures 1 <= bundles[i][b].rows <= maxRows && GroupOfTicket(ticket, bundles[i][b])
    ensures bundles[i][b].offset == bundles[i][0].offset + At(b, bundles[i][0].rows)
    ensures bundles[i][0].offset == BundleOffset(bundles, i)
  {
    TicketContiguous(ticket, maxRows);
    BundleOffsets(bundles, i, b, 3);
    JoinedSplit(bundles, i);
    var j := |Joined(bundles[..i])| + b;
    assert Joined(bundles)[j] == (Joined(bundles[..i]) + bundles[i])[j] == bundles[i][b];
    TicketGroup(ticket, maxRows, j);
  }

  /** Served metadata is accepted, bundle by bundle. */
  lemma ServedIsAccepted(metadata: seq<Workload>, ticket: Ticket, maxRows: nat, i: nat)
    requires 0 < maxRows <= 8 && Serves(metadata, ticket, maxRows) && i < |metadata|
    ensures Accepted(metadata[i].bundle, ticket.Rows()) && BundlePlaced(ticket, metadata[i].bundle)
    ensures metadata[i].bundle[0].offset == BundleOffset(Bundles(metadata), i)
  {
    var bundles := Bundles(metadata);
    assert BundleFits(bundles[i], 3);
    forall b | 0 <= b < |bundles[i]|
      ensures 1 <= bundles[i][b].rows <= 8 && GroupOfTicket(ticket, bundles[i][b])
      ensures bundles[i][b].offset == bundles[i][0].offset + At(b, bundles[i][0].rows)
    {
      BundleGroups(bundles, ticket, maxRows, i, b);
    }
    BundleGroups(bundles, ticket, maxRows, i, 0);
  }

  lemma BundleLink<V>(attend: Attention<V>, query: seq<V>, ticket: Ticket, maxRows: nat, metadata: seq<Workload>,
                      i: nat,
                      outs: seq<seq<V>>)
    requires 0 < maxRows <= 8 && Serves(metadata, ticket, maxRows) && |query| == ticket.Rows() * 12 && i < |metadata|
    requires Shaped(metadata[i]) && Accepted(metadata[i].bundle, ticket.Rows())
    requires BundleDone(attend, query, metadata[i], outs)
    ensures Advances(attend, query, ticket, BundleOffset(Bundles(metadata), i), BundleOffset(Bundles(metadata), i + 1),
                     Flat(outs))
  {
    var w := metadata[i];
    ServedIsAccepted(metadata, ticket, maxRows, i);
    assert Served(w, ticket);
    forall b | 0 <= b < |outs|
      ensures GroupAdvances(attend, query, ticket, w.bundle[0].offset, w.bundle[0].rows, outs, b)
    {
      GroupLink(attend, query, ticket, w, outs, b);
    }
    BundleAdvances(attend, query, ticket, w.bundle[0].offset, w.bundle[0].rows, outs, |outs|);
    assert outs[..|outs|] == outs;
    assert BundleFits(Bundles(metadata)[i], 3);
    NextBundleOffset(Bundles(metadata), i);
  }

  lemma {:induction false} BundlesAdvance<V>(attend: Attention<V>, query: seq<V>, ticket: Ticket, maxRows: nat,
                                             metadata: seq<Workload>, outs: seq<seq<seq<V>>>, n: nat)
    requires 0 < maxRows <= 8 && Serves(metadata, ticket, maxRows) && |query| == ticket.Rows() * 12
    requires AllShaped(metadata) && n <= |outs| == |metadata| && AllAccepted(metadata, |outs|, ticket.Rows())
    requires BundlesDone(attend, query, metadata, outs)
    ensures Advances(attend, query, ticket, BundleOffset(Bundles(metadata), 0), BundleOffset(Bundles(metadata), n),
                     Flat(Flat(outs[..n])))
  {
    if n > 0 {
      var bundles := Bundles(metadata);
      BundlesAdvance(attend, query, ticket, maxRows, metadata, outs, n - 1);
      assert BundleDone(attend, query, metadata[n - 1], outs[n - 1]);
      BundleLink(attend, query, ticket, maxRows, metadata, n - 1, outs[n - 1]);
      FlatExtend(outs, n - 1);
      FlatConcat(Flat(outs[..n - 1]), outs[n - 1]);
      AdvancesChain(attend, query, ticket, BundleOffset(bundles, 0), BundleOffset(bundles, n - 1),
                    BundleOffset(bundles, n),
                    Flat(Flat(outs[..n - 1])), Flat(outs[n - 1]));
    }
  }

  /** The bundles cover the ticket, from its first token to its last. */
  lemma BundlesCover(metadata: seq<Workload>, ticket: Ticket, maxRows: nat)
    requires 0 < maxRows <= 8 && Serves(metadata, ticket, maxRows)
    ensures BundleOffset(Bundles(metadata), 0) == 0 && BundleOffset(Bundles(metadata), |metadata|) == ticket.Rows()
  {
    var bundles := Bundles(metadata);
    GroupsPartitionTokens(ticket.signatures, ticket.Rows(), maxRows);
    assert bundles[..|metadata|] == bundles && bundles[..0] == [];
  }

  lemma ServedIsShaped(metadata: seq<Workload>, ticket: Ticket, maxRows: nat)
    requires 0 < maxRows <= 8 && ticket.Rows() > 0 && Serves(metadata, ticket, maxRows)
    ensures metadata != [] && AllShaped(metadata) && AllAccepted(metadata, |metadata|, ticket.Rows())
  {
    forall i | 0 <= i < |metadata| ensures Shaped(metadata[i]) && Accepted(metadata[i].bundle, ticket.Rows()) {
      assert Served(metadata[i], ticket);
      ServedIsAccepted(metadata, ticket, maxRows, i);
    }
    BundlesCover(metadata, ticket, maxRows);
  }

  lemma BundlesAreSerial<V>(attend: Attention<V>, query: seq<V>, ticket: Ticket, maxRows: nat, metadata: seq<Workload>,
                            outs: seq<seq<seq<V>>>)
    requires 0 < maxRows <= 8 && Serves(metadata, ticket, maxRows) && |query| == ticket.Rows() * 12
    requires AllShaped(metadata) && |outs| == |metadata| && AllAccepted(metadata, |outs|, ticket.Rows())
    requires BundlesDone(attend, query, metadata, outs)
    ensures Flat(Flat(outs)) == Serial(attend, query, ticket, ticket.Rows())
  {
    BundlesAdvance(attend, query, ticket, maxRows, metadata, outs, |outs|);
    BundlesCover(metadata, ticket, maxRows);
    assert outs[..|outs|] == outs;
    AdvancesFromStart(attend, query, ticket, Flat(Flat(outs)));
  }

  lemma AdvancesFromStart<V>(attend: Attention<V>, query: seq<V>, ticket: Ticket, out: seq<V>)
    requires |query| == ticket.Rows() * 12 && Advances(attend, query, ticket, 0, ticket.Rows(), out)
    ensures out == Serial(attend, query, ticket, ticket.Rows())
  {
    assert UpTo(attend, query, ticket, 0) == [];
  }

  /**
   * Folding, bundling, masked attention, slicing, unfolding and joining compute, for every start, token count and
   * query, exactly the per-token causal results, in token order.
   */
  lemma GroupedAttentionIsSerial<V(!new)>(attend: Attention<V>, query: seq<V>, ticket: Ticket, maxRows: nat,
                                          metadata: seq<Workload>, output: seq<V>)
    requires 0 < maxRows <= 8 && Serves(metadata, ticket, maxRows) && |query| == ticket.Rows() * 12
    requires AllShaped(metadata) && AllAccepted(metadata, |metadata|, ticket.Rows())
    requires Executed(attend, query, metadata, output)
    ensures output == Serial(attend, query, ticket, ticket.Rows())
  {
    var outs: seq<seq<seq<V>>> :| |outs| == |metadata| && BundlesDone(attend, query, metadata, outs) &&
        output == Flat(Flat(outs));
    BundlesAreSerial(attend, query, ticket, maxRows, metadata, outs);
  }
}
