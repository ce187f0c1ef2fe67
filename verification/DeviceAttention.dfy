/**
 * `execute` of scripts/ci/attention_parallel.py on tiled storage: the layout kernels of
 * scripts/ci/attention_fold_dma.py around a native attention on folded tiles, tied to the same pipeline on vectors.
 */
module DeviceAttention {
  import opened Arithmetic
  import opened AttentionEquivalence
  import opened AttentionParallel
  import opened Bits
  import opened ChunkGroups
  import opened FoldDma
  import opened HeadFold
  import opened Results
  import opened SerialAttention

  // ----- Tensors as vectors

  /** A head vector: its eight column parts of 32 values, two to a word. */
  type Vector = seq<seq<Word>>

  function QueryVector(pages: seq<Tile>, token: nat, head: nat): (v: Vector)
    requires head < 32 && token * 8 + 8 <= |pages|
    ensures |v| == 8 && forall column :: 0 <= column < 8 ==> v[column] == QueryPart(pages, token, head, column)
  {
    seq(8, (column: nat) requires column < 8 => QueryPart(pages, token, head, column))
  }

  function FoldedVector(pages: seq<Tile>, row: nat): (v: Vector)
    requires (row / 32) * 8 + 8 <= |pages|
    ensures |v| == 8 && forall column :: 0 <= column < 8 ==> v[column] == FoldedPart(pages, row, column)
  {
    seq(8, (column: nat) requires column < 8 => FoldedPart(pages, row, column))
  }

  /** The twelve head vectors of every token of a query tensor. */
  function QueryVectors(pages: seq<Tile>): (vectors: seq<Vector>)
    ensures |vectors| == |pages| / 8 * 12
    ensures forall k :: 0 <= k < |vectors| ==> QueryEntry(pages, k, vectors[k])
  {
    seq(|pages| / 8 * 12, (k: nat) requires k < |pages| / 8 * 12 => QueryVector(pages, k / 12, k % 12))
  }

  predicate QueryEntry(pages: seq<Tile>, k: nat, v: Vector) {
    k < |pages| / 8 * 12 && v == QueryVector(pages, k / 12, k % 12)
  }

  /** The head vectors of a folded group of `count` tokens; its padding rows are no part of them. */
  function FoldedVectors(pages: seq<Tile>, count: nat): (vectors: seq<Vector>)
    requires |pages| == TilesOf(Folded(count * 12))
    ensures |vectors| == count * 12
    ensures forall k :: 0 <= k < |vectors| ==> FoldedEntry(pages, k, vectors[k])
  {
    seq(count * 12, (k: nat) requires k < count * 12 => FoldedVector(pages, k))
  }

  predicate FoldedEntry(pages: seq<Tile>, k: nat, v: Vector) {
    (k / 32) * 8 + 8 <= |pages| && v == FoldedVector(pages, k)
  }

  // ----- The kernels are fold_query and unfold_output

  lemma ForwardVector(source: seq<Tile>, rows: nat, offset: nat, pages: seq<Tile>, k: nat)
    requires 1 <= rows <= 8 && (offset + rows) * 8 <= |source| && Layout(source, rows, false, offset, pages)
    requires k < rows * 12
    ensures (k / 32) * 8 + 8 <= |pages|
    ensures var from := SourceRow(rows, k, false);
      from / 12 < rows && FoldedVector(pages, k) == QueryVector(source, offset + from / 12, from % 12)
  {
    ForwardRefines(source, rows, offset, pages, k, 0);
    var from := SourceRow(rows, k, false);
    forall column | 0 <= column < 8
      ensures FoldedPart(pages, k, column) == QueryPart(source, offset + from / 12, from % 12, column)
    {
      ForwardRefines(source, rows, offset, pages, k, column);
    }
  }

  lemma InverseVector(source: seq<Tile>, rows: nat, pages: seq<Tile>, k: nat)
    requires 1 <= rows <= 8 && |source| == TilesOf(Folded(rows * 12)) && Layout(source, rows, true, 0, pages)
    requires k < rows * 12
    ensures (k / 12) * 8 + 8 <= |pages|
    ensures var from := SourceRow(rows, k, true);
      (from / 32) * 8 + 8 <= |source| && QueryVector(pages, k / 12, k % 12) == FoldedVector(source, from)
  {
    InverseRefines(source, rows, pages, k / 12, k % 12, 0);
    var from := SourceRow(rows, k, true);
    forall column | 0 <= column < 8
      ensures QueryPart(pages, k / 12, k % 12, column) == FoldedPart(source, from, column)
    {
      InverseRefines(source, rows, pages, k / 12, k % 12, column);
    }
  }

  /** The vectors of the tokens that a forward call folds. */
  function Selected<V>(query: seq<V>, offset: nat, rows: nat): (part: seq<V>)
    requires (offset + rows) * 12 <= |query|
    ensures |part| == rows * 12
  {
    query[offset * 12..(offset + rows) * 12]
  }

  lemma SelectedVector(source: seq<Tile>, rows: nat, offset: nat, from: nat)
    requires (offset + rows) * 8 <= |source| && from < rows * 12
    ensures (offset + rows) * 12 <= |QueryVectors(source)|
    ensures Selected(QueryVectors(source), offset, rows)[from] == QueryVector(source, offset + from / 12, from % 12)
  {
    var k := offset * 12 + from;
    assert QueryEntry(source, k, QueryVectors(source)[k]);
    assert k / 12 == offset + from / 12 && k % 12 == from % 12;
  }

  /** On vectors a forward layout call is `fold_query` of the selected tokens. */
  lemma KernelFolds(source: seq<Tile>, rows: nat, offset: nat, pages: seq<Tile>)
    requires 1 <= rows <= 8 && (offset + rows) * 8 <= |source| && Layout(source, rows, false, offset, pages)
    ensures |pages| == TilesOf(Folded(rows * 12)) && (offset + rows) * 12 <= |QueryVectors(source)|
    ensures FoldedVectors(pages, rows) == FoldQuery(Selected(QueryVectors(source), offset, rows), rows)
  {
    SelectedVector(source, rows, offset, 0);
    var part := Selected(QueryVectors(source), offset, rows);
    FoldFollowsSourceRow(part, rows, 0);
    forall k | 0 <= k < rows * 12 ensures FoldedVectors(pages, rows)[k] == FoldQuery(part, rows)[k] {
      FoldFollowsSourceRow(part, rows, k);
      ForwardVector(source, rows, offset, pages, k);
      SelectedVector(source, rows, offset, SourceRow(rows, k, false));
      assert FoldedEntry(pages, k, FoldedVectors(pages, rows)[k]);
    }
  }

  /** On vectors an inverse layout call is `unfold_output`. */
  lemma KernelUnfolds(source: seq<Tile>, rows: nat, pages: seq<Tile>)
    requires 1 <= rows <= 8 && |source| == TilesOf(Folded(rows * 12)) && Layout(source, rows, true, 0, pages)
    ensures |pages| == rows * 8 && QueryVectors(pages) == UnfoldOutput(FoldedVectors(source, rows), rows)
  {
    var folded := FoldedVectors(source, rows);
    UnfoldFollowsSourceRow(folded, rows, 0);
    forall k | 0 <= k < rows * 12 ensures QueryVectors(pages)[k] == UnfoldOutput(folded, rows)[k] {
      UnfoldFollowsSourceRow(folded, rows, k);
      InverseVector(source, rows, pages, k);
      assert QueryEntry(pages, k, QueryVectors(pages)[k]);
      assert FoldedEntry(source, SourceRow(rows, k, true), folded[SourceRow(rows, k, true)]);
    }
  }

  // ----- Joining tensors along the tokens

  lemma JoinedVectors(a: seq<Tile>, b: seq<Tile>, tokens: nat)
    requires |a| == tokens * 8
    ensures QueryVectors(a + b) == QueryVectors(a) + QueryVectors(b)
  {
    var joined, left, right := QueryVectors(a + b), QueryVectors(a), QueryVectors(b);
    assert |joined| == |left| + |right| && |left| == tokens * 12 by {
      LaterTiles(tokens, |b|);
    }
    forall k | 0 <= k < |left| ensures joined[k] == left[k] {
      LeftEntry(a, b, tokens, k);
    }
    forall k | 0 <= k < |right| ensures joined[|left| + k] == right[k] {
      RightEntry(a, b, tokens, k);
    }
    SplitSeq(joined, left, right);
  }

  lemma SplitSeq<T>(joined: seq<T>, left: seq<T>, right: seq<T>)
    requires |joined| == |left| + |right| && forall k :: 0 <= k < |left| ==> joined[k] == left[k]
    requires forall k :: 0 <= k < |right| ==> joined[|left| + k] == right[k]
    ensures joined == left + right
  {
    forall k | |left| <= k < |joined| ensures joined[k] == (left + right)[k] {
      assert joined[|left| + (k - |left|)] == right[k - |left|];
    }
  }

  lemma LaterTiles(tokens: nat, more: nat)
    ensures (tokens * 8 + more) / 8 == tokens + more / 8
  {
  }

  lemma LeftEntry(a: seq<Tile>, b: seq<Tile>, tokens: nat, k: nat)
    requires |a| == tokens * 8 && k < tokens * 12
    ensures k < |QueryVectors(a)| && k < |QueryVectors(a + b)| && QueryVectors(a + b)[k] == QueryVectors(a)[k]
  {
    LaterTiles(tokens, |b|);
    assert QueryEntry(a + b, k, QueryVectors(a + b)[k]);
    assert QueryEntry(a, k, QueryVectors(a)[k]);
    LeftVector(a, b, k / 12, k % 12);
  }

  lemma RightEntry(a: seq<Tile>, b: seq<Tile>, tokens: nat, k: nat)
    requires |a| == tokens * 8 && k < |QueryVectors(b)|
    ensures tokens * 12 + k < |QueryVectors(a + b)| && QueryVectors(a + b)[tokens * 12 + k] == QueryVectors(b)[k]
  {
    LaterTiles(tokens, |b|);
    LaterToken(tokens, k);
    assert QueryEntry(a + b, tokens * 12 + k, QueryVectors(a + b)[tokens * 12 + k]);
    assert QueryEntry(b, k, QueryVectors(b)[k]);
    RightVector(a, b, tokens, k / 12, k % 12);
  }

  lemma LaterToken(tokens: nat, rest: nat)
    ensures (tokens * 12 + rest) / 12 == tokens + rest / 12 && (tokens * 12 + rest) % 12 == rest % 12
  {
  }

  lemma LeftVector(a: seq<Tile>, b: seq<Tile>, token: nat, head: nat)
    requires head < 32 && token * 8 + 8 <= |a|
    ensures QueryVector(a + b, token, head) == QueryVector(a, token, head)
  {
    SliceOfLeft(a, b, token * 8, 8);
    SameVector(a + b, token, a, token, head);
  }

  lemma RightVector(a: seq<Tile>, b: seq<Tile>, tokens: nat, token: nat, head: nat)
    requires |a| == tokens * 8 && head < 32 && token * 8 + 8 <= |b|
    ensures QueryVector(a + b, tokens + token, head) == QueryVector(b, token, head)
  {
    var at := token * 8;
    assert (tokens + token) * 8 == |a| + at;
    SliceOfRight(a, b, at, 8);
    SameVector(a + b, tokens + token, b, token, head);
  }

  lemma SliceOfLeft<T>(a: seq<T>, b: seq<T>, i: nat, n: nat)
    requires i + n <= |a|
    ensures (a + b)[i..i + n] == a[i..i + n]
  {
  }

  lemma SliceOfRight<T>(a: seq<T>, b: seq<T>, i: nat, n: nat)
    requires i + n <= |b|
    ensures (a + b)[|a| + i..|a| + i + n] == b[i..i + n]
  {
  }

  lemma SameVector(a: seq<Tile>, s: nat, b: seq<Tile>, t: nat, head: nat)
    requires s * 8 + 8 <= |a| && t * 8 + 8 <= |b| && head < 32
    requires a[s * 8..s * 8 + 8] == b[t * 8..t * 8 + 8]
    ensures QueryVector(a, s, head) == QueryVector(b, t, head)
  {
    forall column | 0 <= column < 8 ensures QueryPart(a, s, head, column) == QueryPart(b, t, head, column) {
      assert a[s * 8 + column] == a[s * 8..s * 8 + 8][column] == b[t * 8..t * 8 + 8][column] == b[t * 8 + column];
    }
  }

  function VectorsOf(chunks: seq<seq<Tile>>): (vectors: seq<seq<Vector>>)
    ensures |vectors| == |chunks| && forall i :: 0 <= i < |chunks| ==> vectors[i] == QueryVectors(chunks[i])
  {
    seq(|chunks|, (i: nat) requires i < |chunks| => QueryVectors(chunks[i]))
  }

  /** Every chunk is of whole tokens. */
  predicate WholeTokens(chunks: seq<seq<Tile>>) {
    forall i :: 0 <= i < |chunks| ==> |chunks[i]| % 8 == 0
  }

  /** Joining tensors joins their vectors. */
  lemma {:induction false} ConcatVectors(chunks: seq<seq<Tile>>)
    requires WholeTokens(chunks)
    ensures QueryVectors(Flat(chunks)) == Flat(VectorsOf(chunks))
  {
    if chunks != [] {
      ConcatVectors(chunks[1..]);
      JoinedVectors(chunks[0], Flat(chunks[1..]), |chunks[0]| / 8);
      assert VectorsOf(chunks)[1..] == VectorsOf(chunks[1..]);
    }
  }

  // ----- execute on tiles

  /** The native masked attention on the tiles of one batch: its mask, page table, chunk and count of tokens. */
  type Native = (seq<Tile>, seq<seq<nat>>, seq<nat>, nat, nat) -> seq<Tile>

  /** On one batch the native operation attends the folded vectors, whatever it leaves in padding rows. */
  ghost predicate AttendsBatch(native: Native, attend: Attention<Vector>, batch: seq<Tile>, mask: seq<seq<nat>>,
                               table: seq<nat>, chunk: nat, count: nat)
    requires count > 0 && |batch| == TilesOf(Folded(count * 12)) && |mask| == count * 12
  {
    var result := native(batch, mask, table, chunk, count);
    && |result| == |batch|
    && FoldedVectors(result, count) == AttendFolded(attend, FoldedVectors(batch, count), mask, table, chunk, count)
  }

  ghost predicate Attends(native: Native, attend: Attention<Vector>) {
    forall batch: seq<Tile>, mask: seq<seq<nat>>, table: seq<nat>, chunk: nat, count: nat ::
      count > 0 && |batch| == TilesOf(Folded(count * 12)) && |mask| == count * 12 ==>
        AttendsBatch(native, attend, batch, mask, table, chunk, count)
  }

  /** One to three groups of one to eight tokens, of one shape and workload. */
  predicate Uniformed(bundle: Bundle) {
    && 1 <= |bundle| <= 3 && 1 <= bundle[0].rows <= 8
    && forall b :: 0 <= b < |bundle| ==>
         bundle[b].rows == bundle[0].rows && bundle[b].signature == bundle[0].signature
  }

  /** The folded tiles of every group of a bundle. */
  ghost predicate PackedTiles(source: seq<Tile>, bundle: Bundle, packed: seq<seq<Tile>>)
    requires Accepted(bundle, |source| / 8) && |packed| <= |bundle|
  {
    forall b :: 0 <= b < |packed| ==> PackedTile(source, bundle, b, packed[b])
  }

  ghost predicate PackedTile(source: seq<Tile>, bundle: Bundle, b: nat, folded: seq<Tile>)
    requires Accepted(bundle, |source| / 8) && b < |bundle|
  {
    && |folded| == TilesOf(Folded(bundle[0].rows * 12))
    && FoldedVectors(folded, bundle[0].rows) == Packed(QueryVectors(source), bundle, b)
  }

  /** A layout call on this group of the query. */
  predicate Folds(source: seq<Tile>, offset: nat, count: nat, pages: seq<Tile>) {
    0 < count && (offset + count) * 8 <= |source| && Layout(source, count, false, offset, pages)
  }

  /** The folding loop; a group past the end of the query raises. */
  method PackTiles(source: seq<Tile>, bundle: Bundle) returns (r: Result<seq<seq<Tile>>>)
    requires |source| % 8 == 0 && Uniformed(bundle)
    ensures r.Ok? <==> Accepted(bundle, |source| / 8)
    ensures r.Ok? ==> |r.value| == |bundle| && PackedTiles(source, bundle, r.value)
  {
    var count := bundle[0].rows;
    var packed: seq<seq<Tile>> := [];
    for b := 0 to |bundle|
      invariant |packed| == b
      invariant forall i :: 0 <= i < b ==> bundle[i].offset + bundle[i].rows <= |source| / 8
      invariant forall i :: 0 <= i < b ==> Folds(source, bundle[i].offset, count, packed[i])
    {
      var pages := DeviceLayoutDma(source, Query(|source| / 8), count, false, bundle[b].offset);
      if pages.Raised? {
        return Raised;
      }
      packed := packed + [pages.value];
    }
    forall b | 0 <= b < |bundle| ensures PackedTile(source, bundle, b, packed[b]) {
      assert Folds(source, bundle[b].offset, count, packed[b]);
      KernelFolds(source, count, bundle[b].offset, packed[b]);
    }
    r := Ok(packed);
  }

  /** The native operation on a stack of folded groups, batch by batch. */
  function AttendTiles(native: Native, stacked: seq<seq<Tile>>, w: Workload, count: nat): (result: seq<seq<Tile>>)
    requires |stacked| == |w.pages| == |w.mask|
    ensures |result| == |stacked|
    ensures forall b :: 0 <= b < |result| ==> result[b] == native(stacked[b], w.mask[b], w.pages[b], w.chunk, count)
  {
    seq(|stacked|, (b: nat) requires b < |stacked| && |stacked| == |w.pages| == |w.mask| =>
      native(stacked[b], w.mask[b], w.pages[b], w.chunk, count))
  }

  /** The slicing and unfolding loop. */
  method UnpackTiles(result: seq<seq<Tile>>, count: nat) returns (chunks: seq<seq<Tile>>)
    requires 1 <= count <= 8
    requires forall b :: 0 <= b < |result| ==> |result[b]| == TilesOf(Folded(count * 12))
    ensures |chunks| == |result| && WholeTokens(chunks)
    ensures forall b :: 0 <= b < |chunks| ==>
              QueryVectors(chunks[b]) == UnfoldOutput(FoldedVectors(result[b], count), count)
  {
    chunks := [];
    for index := 0 to |result|
      invariant |chunks| == index && WholeTokens(chunks)
      invariant forall b :: 0 <= b < index ==>
                  QueryVectors(chunks[b]) == UnfoldOutput(FoldedVectors(result[b], count), count)
    {
      var pages := DeviceLayoutDma(result[index], Folded(count * 12), count, true, 0);
      KernelUnfolds(result[index], count, pages.value);
      chunks := chunks + [pages.value];
    }
  }

  /** One group's tiles, folded, attended and unfolded, are its outputs. */
  lemma GroupTilesDone(native: Native, attend: Attention<Vector>, source: seq<Tile>, w: Workload, b: nat,
                       folded: seq<Tile>)
    requires Attends(native, attend) && |source| % 8 == 0 && Shaped(w) && Accepted(w.bundle, |source| / 8)
    requires b < |w.bundle| && PackedTile(source, w.bundle, b, folded)
    ensures var count := w.bundle[0].rows;
      var result := native(folded, w.mask[b], w.pages[b], w.chunk, count);
      && |result| == TilesOf(Folded(count * 12))
      && GroupDone(attend, QueryVectors(source), w, b, UnfoldOutput(FoldedVectors(result, count), count))
  {
    assert AttendsBatch(native, attend, folded, w.mask[b], w.pages[b], w.chunk, w.bundle[0].rows);
    GroupOutputDone(attend, QueryVectors(source), w, b);
  }

  /** One bundle, or an error when it does not fit. */
  method BundleTiles(native: Native, ghost attend: Attention<Vector>, source: seq<Tile>, w: Workload)
    returns (r: Result<seq<seq<Tile>>>)
    requires Attends(native, attend) && |source| % 8 == 0 && Shaped(w)
    ensures r.Ok? <==> Accepted(w.bundle, |source| / 8)
    ensures r.Ok? ==> WholeTokens(r.value) && BundleDone(attend, QueryVectors(source), w, VectorsOf(r.value))
  {
    if !Uniformed(w.bundle) {
      return Raised;
    }
    var count := w.bundle[0].rows;
    var packed := PackTiles(source, w.bundle);
    if packed.Raised? {
      return Raised;
    }
    var result := AttendTiles(native, packed.value, w, count);
    forall b | 0 <= b < |result|
      ensures |result[b]| == TilesOf(Folded(count * 12))
      ensures GroupDone(attend, QueryVectors(source), w, b, UnfoldOutput(FoldedVectors(result[b], count), count))
    {
      assert PackedTile(source, w.bundle, b, packed.value[b]);
      GroupTilesDone(native, attend, source, w, b, packed.value[b]);
    }
    var chunks := UnpackTiles(result, count);
    r := Ok(chunks);
  }

  /**
   * `execute` on the tiles of a query: an error exactly when the same pipeline on vectors raises, otherwise tiles that
   * hold its output.
   */
  method ExecuteTiles(native: Native, ghost attend: Attention<Vector>, source: seq<Tile>, metadata: seq<Workload>)
    returns (r: Result<seq<Tile>>)
    requires Attends(native, attend) && |source| % 8 == 0 && AllShaped(metadata)
    ensures r.Ok? <==> metadata != [] && AllAccepted(metadata, |metadata|, |source| / 8)
    ensures r.Ok? ==> Executed(attend, QueryVectors(source), metadata, QueryVectors(r.value))
  {
    var chunks: seq<seq<Tile>> := [];
    ghost var query := QueryVectors(source);
    ghost var outs: seq<seq<seq<Vector>>> := [];
    for i := 0 to |metadata|
      invariant |outs| == i && AllAccepted(metadata, i, |source| / 8) && BundlesDone(attend, query, metadata, outs)
      invariant WholeTokens(chunks) && VectorsOf(chunks) == Flat(outs)
    {
      var part := BundleTiles(native, attend, source, metadata[i]);
      if part.Raised? {
        return Raised;
      }
      BundlesGrow(attend, query, metadata, outs, VectorsOf(part.value));
      FlatAppend(outs, VectorsOf(part.value));
      outs := outs + [VectorsOf(part.value)];
      assert VectorsOf(chunks + part.value) == VectorsOf(chunks) + VectorsOf(part.value);
      chunks := chunks + part.value;
    }
    if metadata == [] {
      return Raised;
    }
    ConcatVectors(chunks);
    r := Ok(Flat(chunks));
  }

  /**
   * Under the metadata of a ticket the layout kernels, the native attention between them and the joins give, in tiles,
   * the per-token causal results of every token of the query.
   */
  method ReadTiles(native: Native, ghost attend: Attention<Vector>, source: seq<Tile>, ghost ticket: Ticket,
                   ghost maxRows: nat, metadata: seq<Workload>) returns (r: Result<seq<Tile>>)
    requires Attends(native, attend) && |source| == ticket.Rows() * 8 > 0
    requires 0 < maxRows <= 8 && Serves(metadata, ticket, maxRows)
    ensures r.Ok? && QueryVectors(r.value) == Serial(attend, QueryVectors(source), ticket, ticket.Rows())
  {
    ServedIsShaped(metadata, ticket, maxRows);
    r := ExecuteTiles(native, attend, source, metadata);
    GroupedAttentionIsSerial(attend, QueryVectors(source), ticket, maxRows, metadata, QueryVectors(r.value));
  }
}
