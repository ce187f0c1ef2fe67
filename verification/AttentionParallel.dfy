/**
 * The grouped attention pipeline of scripts/ci/attention_parallel.py: fold, stack, attend under a mask, slice, unfold.
 */
module AttentionParallel {
  import opened Arithmetic
  import opened ChunkGroups
  import opened HeadFold
  import opened MaskReplay
  import opened Results
  import opened SerialAttention

  // ----- The masked operation on folded groups

  /** What a bundle is attended with: a page table and a mask for each group, and the native chunk size. */
  datatype Workload = Workload(bundle: Bundle, pages: seq<seq<nat>>, mask: seq<seq<seq<nat>>>, chunk: nat)

  /** The cells a mask row leaves visible. */
  function VisibleCells(row: seq<nat>, table: seq<nat>): map<nat, Cell> {
    map p: nat | p < |row| && p / 64 < |table| && row[p] != HIDDEN :: Cell(table[p / 64], p % 64)
  }

  /** The native masked attention on one folded group of `count` tokens: two KV heads share the folded heads. */
  function AttendFolded<V>(attend: Attention<V>, folded: seq<V>, mask: seq<seq<nat>>, table: seq<nat>, chunk: nat,
                           count: nat): (out: seq<V>)
    requires count > 0 && |folded| == count * 12 == |mask|
    ensures |out| == |folded|
  {
    seq(count * 12, (q: nat) requires q < count * 12 =>
      attend(folded[q], Quotient(q, count * 6), VisibleCells(mask[q], table), Signature(chunk, |mask[q]|)))
  }

  /** Fold, attend and unfold the group of `count` tokens that starts at token `offset`. */
  function GroupOutput<V>(attend: Attention<V>, query: seq<V>, offset: nat, count: nat, mask: seq<seq<nat>>,
                          table: seq<nat>, chunk: nat): (out: seq<V>)
    requires count > 0 && (offset + count) * 12 <= |query| && |mask| == count * 12
  {
    var folded := FoldQuery(query[offset * 12..(offset + count) * 12], count);
    FoldAt(query[offset * 12..(offset + count) * 12], count, 0, 0, 0);
    UnfoldOutput(AttendFolded(attend, folded, mask, table, chunk, count), count)
  }

  /** The folded head that holds output vector `k` (token k / 12, head k % 12) of a group of `count` tokens. */
  function FoldedHead(count: nat, k: nat): nat {
    ((k % 12) / 6) * (count * 6) + (k / 12) * 6 + k % 6
  }

  lemma FoldedHeadPosition(first: nat, count: nat, k: nat)
    requires count > 0 && k < count * 12
    ensures FoldedHead(count, k) < count * 12 && TokenPosition(first, count, FoldedHead(count, k)) == first + k / 12
  {
    TokenDigits(k);
    SourceRowDigits(count, k / 12, (k % 12) / 6, k % 6);
    FoldedIndex(count, k / 12, (k % 12) / 6, k % 6);
    FoldedBound(count, k / 12, (k % 12) / 6, k % 6);
  }

  lemma FoldedBound(count: nat, token: nat, kv: nat, h: nat)
    requires token < count && kv < 2 && h < 6
    ensures kv * (count * 6) + token * 6 + h < count * 12
  {
  }

  /** Output vector `k` of a group: that token's own query under its own mask row. */
  function MaskedHead<V>(attend: Attention<V>, query: seq<V>, offset: nat, count: nat, mask: seq<seq<nat>>,
                         table: seq<nat>, chunk: nat, k: nat): V
    requires count > 0 && (offset + count) * 12 <= |query| && |mask| == count * 12 && k < count * 12
  {
    FoldedHeadPosition(0, count, k);
    var row := mask[FoldedHead(count, k)];
    attend(query[offset * 12 + k], (k % 12) / 6, VisibleCells(row, table), Signature(chunk, |row|))
  }

  /** Folding, attending and unfolding give every vector of the group its own mask row. */
  lemma GroupOutputAt<V>(attend: Attention<V>, query: seq<V>, offset: nat, count: nat, mask: seq<seq<nat>>,
                         table: seq<nat>, chunk: nat, k: nat)
    requires count > 0 && (offset + count) * 12 <= |query| && |mask| == count * 12 && k < count * 12
    ensures |GroupOutput(attend, query, offset, count, mask, table, chunk)| == count * 12
    ensures GroupOutput(attend, query, offset, count, mask, table, chunk)[k] ==
            MaskedHead(attend, query, offset, count, mask, table, chunk, k)
  {
    var part := query[offset * 12..(offset + count) * 12];
    TokenDigits(k);
    var token, kv, h := k / 12, (k % 12) / 6, k % 6;
    FoldAt(part, count, token, kv, h);
    FoldedIndex(count, token, kv, h);
    UnfoldAt(AttendFolded(attend, FoldQuery(part, count), mask, table, chunk, count), count, token, kv, h);
  }

  // ----- execute

  /** What `execute` and the fold require of a bundle of a query of `tokens` tokens. */
  predicate Accepted(bundle: Bundle, tokens: nat) {
    && 1 <= |bundle| <= 3 && 1 <= bundle[0].rows <= 8
    && forall b :: 0 <= b < |bundle| ==> bundle[b].rows == bundle[0].rows && bundle[b].signature == bundle[0].signature
                                         && bundle[b].offset + bundle[b].rows <= tokens
  }

  /** A page table row and a mask of the right height for every group of the bundle. */
  predicate Shaped(w: Workload) {
    && |w.pages| == |w.mask| == |w.bundle|
    && forall b :: 0 <= b < |w.bundle| ==> |w.mask[b]| == w.bundle[0].rows * 12
  }

  predicate AllShaped(metadata: seq<Workload>) {
    forall i :: 0 <= i < |metadata| ==> Shaped(metadata[i])
  }

  predicate AllAccepted(metadata: seq<Workload>, n: nat, tokens: nat)
    requires n <= |metadata|
  {
    forall i :: 0 <= i < n ==> Accepted(metadata[i].bundle, tokens)
  }

  /** `out` is the output of group `b` of a bundle: every vector attends its own query under its own mask row. */
  ghost predicate GroupDone<V>(attend: Attention<V>, query: seq<V>, w: Workload, b: nat, out: seq<V>)
    requires Shaped(w) && Accepted(w.bundle, |query| / 12) && b < |w.bundle|
  {
    var count := w.bundle[0].rows;
    && |out| == count * 12
    && forall k :: 0 <= k < count * 12 ==>
         out[k] == MaskedHead(attend, query, w.bundle[b].offset, count, w.mask[b], w.pages[b], w.chunk, k)
  }

  /** The outputs of a bundle's groups, in order. */
  ghost predicate BundleDone<V>(attend: Attention<V>, query: seq<V>, w: Workload, outs: seq<seq<V>>)
    requires Shaped(w) && Accepted(w.bundle, |query| / 12)
  {
    |outs| == |w.bundle| && forall b :: 0 <= b < |outs| ==> GroupDone(attend, query, w, b, outs[b])
  }

  /** The outputs of the first bundles, in order. */
  ghost predicate BundlesDone<V>(attend: Attention<V>, query: seq<V>, metadata: seq<Workload>, outs: seq<seq<seq<V>>>)
    requires AllShaped(metadata) && |outs| <= |metadata| && AllAccepted(metadata, |outs|, |query| / 12)
  {
    forall i :: 0 <= i < |outs| ==> BundleDone(attend, query, metadata[i], outs[i])
  }

  lemma BundlesGrow<V>(attend: Attention<V>, query: seq<V>, metadata: seq<Workload>, outs: seq<seq<seq<V>>>,
                       out: seq<seq<V>>)
    requires AllShaped(metadata) && |outs| < |metadata| && AllAccepted(metadata, |outs|, |query| / 12)
    requires Accepted(metadata[|outs|].bundle, |query| / 12)
    requires BundlesDone(attend, query, metadata, outs) && BundleDone(attend, query, metadata[|outs|], out)
    ensures AllAccepted(metadata, |outs| + 1, |query| / 12) && BundlesDone(attend, query, metadata, outs + [out])
  {
    forall i | 0 <= i < |outs| + 1 ensures BundleDone(attend, query, metadata[i], (outs + [out])[i]) {
      if i < |outs| {
        assert BundleDone(attend, query, metadata[i], outs[i]);
      }
    }
  }

  /** The result of `execute`: the outputs of all groups of all bundles, joined. */
  ghost predicate Executed<V(!new)>(attend: Attention<V>, query: seq<V>, metadata: seq<Workload>, output: seq<V>)
    requires AllShaped(metadata) && AllAccepted(metadata, |metadata|, |query| / 12)
  {
    exists outs: seq<seq<seq<V>>> :: |outs| == |metadata| && BundlesDone(attend, query, metadata, outs) &&
                                     output == Flat(Flat(outs))
  }

  /** Fold group `b` of a bundle. */
  function Packed<V>(query: seq<V>, bundle: Bundle, b: nat): (folded: seq<V>)
    requires Accepted(bundle, |query| / 12) && b < |bundle|
    ensures |folded| == bundle[0].rows * 12
  {
    var count := bundle[0].rows;
    var part := query[bundle[b].offset * 12..(bundle[b].offset + count) * 12];
    FoldAt(part, count, 0, 0, 0);
    FoldQuery(part, count)
  }

  /** The folding loop. */
  method Pack<V>(query: seq<V>, bundle: Bundle) returns (packed: seq<seq<V>>)
    requires Accepted(bundle, |query| / 12)
    ensures |packed| == |bundle| && forall b :: 0 <= b < |bundle| ==> packed[b] == Packed(query, bundle, b)
  {
    packed := [];
    for b := 0 to |bundle|
      invariant |packed| == b && forall i :: 0 <= i < b ==> packed[i] == Packed(query, bundle, i)
    {
      packed := packed + [Packed(query, bundle, b)];
    }
  }

  /** The native masked attention on a stack of folded groups: every batch with its own mask and page table. */
  function AttendStacked<V>(attend: Attention<V>, stacked: seq<seq<V>>, w: Workload, count: nat): (result: seq<seq<V>>)
    requires Shaped(w) && w.bundle != [] && 0 < count == w.bundle[0].rows
    requires |stacked| == |w.bundle| && Uniform(stacked, count * 12)
    ensures |result| == |stacked| && Uniform(result, count * 12)
    ensures forall b :: 0 <= b < |result| ==>
              result[b] == AttendFolded(attend, stacked[b], w.mask[b], w.pages[b], w.chunk, count)
  {
    seq(|stacked|, (b: nat) requires b < |stacked| && Uniform(stacked, count * 12) =>
      AttendFolded(attend, stacked[b], w.mask[b], w.pages[b], w.chunk, count))
  }

  /** The slicing and unfolding loop. */
  method Unpack<V>(result: seq<seq<V>>, count: nat) returns (chunks: seq<seq<V>>)
    requires count > 0 && Uniform(result, count * 12)
    ensures |chunks| == |result| && forall b :: 0 <= b < |result| ==> chunks[b] == UnfoldOutput(result[b], count)
  {
    chunks := [];
    for index := 0 to |result|
      invariant |chunks| == index && forall b :: 0 <= b < index ==> chunks[b] == UnfoldOutput(result[b], count)
    {
      var selected := result[index];
      chunks := chunks + [UnfoldOutput(selected, count)];
    }
  }

  /** One bundle: fold every group, attend the stack at once, slice it and unfold every slice. */
  method AttendBundle<V>(attend: Attention<V>, query: seq<V>, w: Workload) returns (outs: seq<seq<V>>)
    requires Shaped(w) && Accepted(w.bundle, |query| / 12)
    ensures BundleDone(attend, query, w, outs)
  {
    var count := w.bundle[0].rows;
    var stacked := Pack(query, w.bundle);
    var result := AttendStacked(attend, stacked, w, count);
    outs := Unpack(result, count);
    forall b | 0 <= b < |outs| ensures GroupDone(attend, query, w, b, outs[b]) {
      GroupOutputDone(attend, query, w, b);
    }
  }

  lemma GroupOutputDone<V>(attend: Attention<V>, query: seq<V>, w: Workload, b: nat)
    requires Shaped(w) && Accepted(w.bundle, |query| / 12) && b < |w.bundle|
    ensures GroupDone(attend, query, w, b, UnfoldOutput(
              AttendFolded(attend, Packed(query, w.bundle, b), w.mask[b], w.pages[b], w.chunk, w.bundle[0].rows),
              w.bundle[0].rows))
  {
    var count, offset := w.bundle[0].rows, w.bundle[b].offset;
    GroupOutputAt(attend, query, offset, count, w.mask[b], w.pages[b], w.chunk, 0);
    forall k | 0 <= k < count * 12
      ensures GroupOutput(attend, query, offset, count, w.mask[b], w.pages[b], w.chunk)[k] ==
              MaskedHead(attend, query, offset, count, w.mask[b], w.pages[b], w.chunk, k)
    {
      GroupOutputAt(attend, query, offset, count, w.mask[b], w.pages[b], w.chunk, k);
    }
  }

  /** `execute`: the groups' outputs in order, or an error when a bundle does not fit or there is none. */
  method Execute<V(!new)>(attend: Attention<V>, query: seq<V>, metadata: seq<Workload>) returns (r: Result<seq<V>>)
    requires AllShaped(metadata)
    ensures r.Ok? <==> metadata != [] && AllAccepted(metadata, |metadata|, |query| / 12)
    ensures r.Ok? ==> Executed(attend, query, metadata, r.value)
  {
    var chunks: seq<seq<V>> := [];
    ghost var outs: seq<seq<seq<V>>> := [];
    for i := 0 to |metadata|
      invariant |outs| == i && AllAccepted(metadata, i, |query| / 12) && BundlesDone(attend, query, metadata, outs)
      invariant chunks == Flat(outs)
    {
      if !Accepted(metadata[i].bundle, |query| / 12) {
        return Raised;
      }
      var part := AttendBundle(attend, query, metadata[i]);
      BundlesGrow(attend, query, metadata, outs, part);
      FlatAppend(outs, part);
      outs := outs + [part];
      chunks := chunks + part;
    }
    if metadata == [] {
      return Raised;
    }
    r := Ok(Flat(chunks));
  }
}
