/**
 * What the chunked prefill does to the device (the loop of `_prefill_traced_chunked_tp` as rewritten by
 * optimisation/sim/stage-continuation.py), with the model's kernels left as functions of what they read.
 */
module Prefill {
  import opened Arithmetic
  import opened Results

  /**
   * The model. `S` is the recurrent and convolution state, `P` the content of one KV page, `H` the hidden
   * output of the captured chunk trace and `L` logits. Chunk and tail kernels read the state, the pages of
   * all earlier positions in position order, their own tokens and their start; `chunkPage` and `tailPage`
   * give the content of the i-th page they write.
   */
  datatype Model<!S, !P, !H, !L> = Model(
    zero: S,
    chunkState: (S, seq<P>, seq<int>, nat) -> S,
    chunkPage: (S, seq<P>, seq<int>, nat, nat) -> P,
    chunkHidden: (S, seq<P>, seq<int>, nat) -> H,
    tailState: (S, seq<P>, seq<int>, nat) -> S,
    tailPage: (S, seq<P>, seq<int>, nat, nat) -> P,
    tailLogits: (S, seq<P>, seq<int>, nat) -> L,
    head: H -> L)

  /** A chunk covers `blocks` pages of `block` positions each. */
  datatype Geometry = Geometry(block: nat, blocks: nat)

  predicate ValidGeometry(g: Geometry) { 0 < g.block && 0 < g.blocks }

  function ChunkSize(g: Geometry): nat { At(g.blocks, g.block) }

  /** Scratch state, output of the last traced chunk, physical KV pages and per-slot decode states. */
  datatype Device<S, P, H> = Device(scratch: S, traced: Option<H>, kv: seq<P>, slots: seq<S>)

  // ----- The whole prefill, in position order and without a page table

  datatype Progress<S, P, H> = Progress(state: S, pages: seq<P>, hidden: Option<H>)

  function Pages<P>(n: nat, content: nat -> P): (pages: seq<P>)
    ensures |pages| == n && forall i :: 0 <= i < n ==> pages[i] == content(i)
  {
    seq(n, (i: nat) => content(i))
  }

  function ChunkTokens(g: Geometry, tokens: seq<int>, c: nat): seq<int> {
    if At(c + 1, ChunkSize(g)) <= |tokens| then tokens[At(c, ChunkSize(g))..At(c + 1, ChunkSize(g))] else []
  }

  /** The state, KV pages and hidden output after one more chunk. */
  function NextChunk<S, P, H, L>(m: Model<S, P, H, L>, g: Geometry, p: Progress<S, P, H>, own: seq<int>, at: nat)
    : Progress<S, P, H>
  {
    Progress(m.chunkState(p.state, p.pages, own, at),
             p.pages + Pages(g.blocks, i => m.chunkPage(p.state, p.pages, own, at, i)),
             Some(m.chunkHidden(p.state, p.pages, own, at)))
  }

  /** The first `n` full chunks of a prompt, each applied once, in order, from a reset state. */
  function Chunks<S, P, H, L>(m: Model<S, P, H, L>, g: Geometry, tokens: seq<int>, n: nat): (p: Progress<S, P, H>)
    ensures n > 0 ==> p.hidden.Some?
  {
    if n == 0 then Progress(m.zero, [], None)
    else
      NextChunk(m, g, Chunks(m, g, tokens, n - 1), ChunkTokens(g, tokens, n - 1), At(n - 1, ChunkSize(g)))
  }

  datatype Prefilled<S, P, L> = Prefilled(state: S, pages: seq<P>, logits: L)

  /** Pages a tail of `tail` tokens occupies. */
  function TailPages(g: Geometry, tail: nat): nat
    requires ValidGeometry(g)
  {
    Quotient(tail + g.block - 1, g.block)
  }

  function TailTokens(g: Geometry, tokens: seq<int>, n: nat): seq<int> {
    if At(n, ChunkSize(g)) <= |tokens| then tokens[At(n, ChunkSize(g))..] else []
  }

  /** The tokens of the first `n` chunks. */
  function ChunkedTokens(g: Geometry, tokens: seq<int>, n: nat): seq<int> {
    if n == 0 then [] else ChunkedTokens(g, tokens, n - 1) + ChunkTokens(g, tokens, n - 1)
  }

  /** Chunks and tail are the prompt: every token once, in order, in chunks of one size. */
  lemma {:induction false} ChunksTilePrompt(g: Geometry, tokens: seq<int>, n: nat)
    requires At(n, ChunkSize(g)) <= |tokens|
    ensures ChunkedTokens(g, tokens, n) + TailTokens(g, tokens, n) == tokens
    ensures forall c :: 0 <= c < n ==> |ChunkTokens(g, tokens, c)| == ChunkSize(g)
  {
    if n > 0 {
      ChunksTilePrompt(g, tokens, n - 1);
      var before, after := At(n - 1, ChunkSize(g)), At(n, ChunkSize(g));
      assert tokens[before..] == tokens[before..after] + tokens[after..];
    }
  }

  /** One whole prefill of a nonempty prompt of `n` full chunks and perhaps a tail. */
  function Whole<S, P, H, L>(m: Model<S, P, H, L>, g: Geometry, tokens: seq<int>, n: nat): Prefilled<S, P, L>
    requires ValidGeometry(g) && (n > 0 || |TailTokens(g, tokens, n)| > 0)
  {
    var p, own, at := Chunks(m, g, tokens, n), TailTokens(g, tokens, n), At(n, ChunkSize(g));
    if own == [] then Prefilled(p.state, p.pages, m.head(p.hidden.value))
    else Prefilled(m.tailState(p.state, p.pages, own, at),
                   p.pages + Pages(TailPages(g, |own|), i => m.tailPage(p.state, p.pages, own, at, i)),
                   m.tailLogits(p.state, p.pages, own, at))
  }

  // ----- The same steps on the device, through the page table

  /** Page ids are inside the physical pool, and no page holds two blocks of the request. */
  predicate Mapped(pages: seq<int>, physical: nat) {
    && (forall i :: 0 <= i < |pages| ==> 0 <= pages[i] < physical)
    && (forall i, j :: 0 <= i < j < |pages| ==> pages[i] != pages[j])
  }

  predicate InPool(pages: seq<int>, physical: nat) {
    forall i :: 0 <= i < |pages| ==> 0 <= pages[i] < physical
  }

  function Gather<P>(kv: seq<P>, pages: seq<int>): (contents: seq<P>)
    requires InPool(pages, |kv|)
    ensures |contents| == |pages| && forall i :: 0 <= i < |pages| ==> contents[i] == kv[pages[i]]
  {
    seq(|pages|, (i: nat) requires i < |pages| => kv[pages[i]])
  }

  function Scatter<P>(kv: seq<P>, pages: seq<int>, contents: seq<P>): (next: seq<P>)
    requires InPool(pages, |kv|) && |contents| == |pages|
    ensures |next| == |kv|
    decreases |pages|
  {
    if pages == [] then kv
    else Scatter(kv, pages[..|pages| - 1], contents[..|pages| - 1])[pages[|pages| - 1] := contents[|pages| - 1]]
  }

  lemma {:induction false} ScatterWrites<P>(kv: seq<P>, pages: seq<int>, contents: seq<P>)
    requires Mapped(pages, |kv|) && |contents| == |pages|
    ensures forall i :: 0 <= i < |pages| ==> Scatter(kv, pages, contents)[pages[i]] == contents[i]
    ensures forall p :: 0 <= p < |kv| && p !in pages ==> Scatter(kv, pages, contents)[p] == kv[p]
    decreases |pages|
  {
    if pages != [] {
      var n := |pages| - 1;
      ScatterWrites(kv, pages[..n], contents[..n]);
      OneMoreWrite(kv, Scatter(kv, pages[..n], contents[..n]), pages, contents, n);
    }
  }

  lemma OneMoreWrite<P>(kv: seq<P>, before: seq<P>, pages: seq<int>, contents: seq<P>, n: nat)
    requires Mapped(pages, |kv|) && |contents| == |pages| == n + 1 && |before| == |kv|
    requires forall i :: 0 <= i < n ==> before[pages[..n][i]] == contents[..n][i]
    requires forall p :: 0 <= p < |kv| && p !in pages[..n] ==> before[p] == kv[p]
    ensures forall i :: 0 <= i < |pages| ==> before[pages[n] := contents[n]][pages[i]] == contents[i]
    ensures forall p :: 0 <= p < |kv| && p !in pages ==> before[pages[n] := contents[n]][p] == kv[p]
  {
    forall i | 0 <= i < n ensures before[pages[i]] == contents[i] && pages[i] != pages[n] {
      assert pages[..n][i] == pages[i] && contents[..n][i] == contents[i];
    }
    forall p | 0 <= p < |kv| && p !in pages ensures before[p] == kv[p] {
      assert p !in pages[..n];
    }
  }

  /** The pages before are disjoint from the request's next ones. */
  lemma MappedParts(before: seq<int>, own: seq<int>, physical: nat)
    requires Mapped(before + own, physical)
    ensures Mapped(before, physical) && Mapped(own, physical)
    ensures forall i :: 0 <= i < |before| ==> before[i] !in own
  {
    var all := before + own;
    forall i | 0 <= i < |before| ensures before[i] == all[i] && before[i] !in own {
      assert forall j :: 0 <= j < |own| ==> own[j] == all[|before| + j];
    }
    assert forall j :: 0 <= j < |own| ==> own[j] == all[|before| + j];
  }

  /** Writing fresh pages leaves the earlier ones and appends the new contents to what is gathered. */
  lemma ScatterAppends<P>(kv: seq<P>, before: seq<int>, pages: seq<int>, contents: seq<P>)
    requires Mapped(before + pages, |kv|) && |contents| == |pages|
    ensures InPool(before, |kv|) && InPool(pages, |kv|)
    ensures Gather(Scatter(kv, pages, contents), before + pages) == Gather(kv, before) + contents
    ensures forall p :: 0 <= p < |kv| && p !in before + pages ==> Scatter(kv, pages, contents)[p] == kv[p]
  {
    MappedParts(before, pages, |kv|);
    ScatterWrites(kv, pages, contents);
    var next := Scatter(kv, pages, contents);
    GatherKept(kv, next, before, pages);
    assert Gather(next, pages) == contents;
    GatherJoins(next, before, pages);
    forall p | 0 <= p < |kv| && p !in before + pages ensures next[p] == kv[p] {
      assert p !in pages;
    }
  }

  /** Pages that were not written hold what they held. */
  lemma GatherKept<P>(kv: seq<P>, next: seq<P>, before: seq<int>, written: seq<int>)
    requires InPool(before, |kv|) && |next| == |kv| && forall i :: 0 <= i < |before| ==> before[i] !in written
    requires forall p :: 0 <= p < |kv| && p !in written ==> next[p] == kv[p]
    ensures Gather(next, before) == Gather(kv, before)
  {
  }

  lemma GatherJoins<P>(kv: seq<P>, a: seq<int>, b: seq<int>)
    requires InPool(a, |kv|) && InPool(b, |kv|)
    ensures InPool(a + b, |kv|) && Gather(kv, a + b) == Gather(kv, a) + Gather(kv, b)
  {
  }

  /** The device after a chunk kernel whose own pages are `own` and whose earlier pages are `before`. */
  function DeviceChunk<S, P, H, L>(m: Model<S, P, H, L>, d: Device<S, P, H>, before: seq<int>, own: seq<int>,
                                   tokens: seq<int>, at: nat): (next: Device<S, P, H>)
    requires InPool(before, |d.kv|) && InPool(own, |d.kv|)
    ensures |next.kv| == |d.kv| && next.slots == d.slots
  {
    var prior := Gather(d.kv, before);
    Device(m.chunkState(d.scratch, prior, tokens, at), Some(m.chunkHidden(d.scratch, prior, tokens, at)),
           Scatter(d.kv, own, Pages(|own|, i => m.chunkPage(d.scratch, prior, tokens, at, i))), d.slots)
  }

  function DeviceTail<S, P, H, L>(m: Model<S, P, H, L>, d: Device<S, P, H>, before: seq<int>, own: seq<int>,
                                  tokens: seq<int>, at: nat): (next: Device<S, P, H>)
    requires InPool(before, |d.kv|) && InPool(own, |d.kv|)
    ensures |next.kv| == |d.kv| && next.slots == d.slots
  {
    var prior := Gather(d.kv, before);
    d.(scratch := m.tailState(d.scratch, prior, tokens, at),
       kv := Scatter(d.kv, own, Pages(|own|, i => m.tailPage(d.scratch, prior, tokens, at, i))))
  }

  /** The device holds the progress `p` of a request mapped to `pages`. */
  ghost predicate Holds<S, P, H>(d: Device<S, P, H>, pages: seq<int>, p: Progress<S, P, H>) {
    && InPool(pages, |d.kv|) && d.scratch == p.state && Gather(d.kv, pages) == p.pages
    && (p.hidden.Some? ==> d.traced == p.hidden)
  }

  lemma ChunkHolds<S, P, H, L>(m: Model<S, P, H, L>, g: Geometry, d: Device<S, P, H>, p: Progress<S, P, H>,
                               before: seq<int>, own: seq<int>, tokens: seq<int>, at: nat)
    requires Mapped(before + own, |d.kv|) && |own| == g.blocks && Holds(d, before, p)
    ensures InPool(own, |d.kv|)
    ensures Holds(DeviceChunk(m, d, before, own, tokens, at), before + own, NextChunk(m, g, p, tokens, at))
    ensures forall q :: 0 <= q < |d.kv| && q !in before + own ==>
              DeviceChunk(m, d, before, own, tokens, at).kv[q] == d.kv[q]
  {
    var contents := Pages(|own|, i => m.chunkPage(d.scratch, Gather(d.kv, before), tokens, at, i));
    ScatterAppends(d.kv, before, own, contents);
    assert contents == Pages(g.blocks, i => m.chunkPage(p.state, p.pages, tokens, at, i));
  }

  // ----- One continuation step

  /** The first `c` chunks have their pages in the table. */
  predicate Fits(g: Geometry, pages: seq<int>, c: nat) { At(c, g.blocks) <= |pages| }

  /** The request's pages of the positions before chunk `c`. */
  function PagesBefore(g: Geometry, pages: seq<int>, c: nat): (before: seq<int>)
    ensures forall x :: x in before ==> x in pages
    ensures c == 0 ==> before == []
  {
    if At(c, g.blocks) <= |pages| then pages[..At(c, g.blocks)] else pages
  }

  /** The pages chunk `c` writes. */
  function OwnPages(g: Geometry, pages: seq<int>, c: nat): (own: seq<int>)
    ensures forall x :: x in own ==> x in pages
    ensures Fits(g, pages, c + 1) ==>
              |own| == g.blocks && PagesBefore(g, pages, c) + own == PagesBefore(g, pages, c + 1)
  {
    var first, last := At(c, g.blocks), At(c + 1, g.blocks);
    if last <= |pages| then
      assert pages[..first] + pages[first..last] == pages[..last];
      pages[first..last]
    else []
  }

  lemma PoolOfPart(part: seq<int>, pages: seq<int>, physical: nat)
    requires InPool(pages, physical) && forall x :: x in part ==> x in pages
    ensures InPool(part, physical)
  {
    forall i | 0 <= i < |part| ensures 0 <= part[i] < physical {
      assert part[i] in part;
    }
  }

  /** The device after chunk `c` of a request mapped to `pages`. */
  function ReplayChunk<S, P, H, L>(m: Model<S, P, H, L>, g: Geometry, d: Device<S, P, H>, tokens: seq<int>,
                                   pages: seq<int>, c: nat): (next: Device<S, P, H>)
    requires InPool(pages, |d.kv|)
    ensures |next.kv| == |d.kv| && next.slots == d.slots
  {
    PoolOfPart(PagesBefore(g, pages, c), pages, |d.kv|);
    PoolOfPart(OwnPages(g, pages, c), pages, |d.kv|);
    DeviceChunk(m, d, PagesBefore(g, pages, c), OwnPages(g, pages, c), ChunkTokens(g, tokens, c), At(c, ChunkSize(g)))
  }

  /** The device after the chunks in [from, stop). */
  function RunChunks<S, P, H, L>(m: Model<S, P, H, L>, g: Geometry, d: Device<S, P, H>, tokens: seq<int>,
                                 pages: seq<int>, from: nat, stop: nat): (next: Device<S, P, H>)
    requires InPool(pages, |d.kv|)
    ensures |next.kv| == |d.kv| && next.slots == d.slots
    decreases stop
  {
    if stop <= from then d
    else ReplayChunk(m, g, RunChunks(m, g, d, tokens, pages, from, stop - 1), tokens, pages, stop - 1)
  }

  /** The chunk loop of the rewritten `_prefill_traced_chunked_tp`, from chunk `from`. */
  method ReplayChunks<S, P, H, L>(m: Model<S, P, H, L>, g: Geometry, device: Device<S, P, H>, tokens: seq<int>,
                                  pages: seq<int>, from: nat, stop: nat) returns (d: Device<S, P, H>)
    requires InPool(pages, |device.kv|)
    ensures d == RunChunks(m, g, device, tokens, pages, from, stop)
  {
    d := device;
    if from < stop {
      for c := from to stop
        invariant d == RunChunks(m, g, device, tokens, pages, from, c)
      {
        d := ReplayChunk(m, g, d, tokens, pages, c);
      }
    }
  }

  /** Pages that `n` full chunks and a tail occupy. */
  function UsedPages(g: Geometry, n: nat, tail: nat): nat
    requires ValidGeometry(g)
  {
    At(n, g.blocks) + (if tail == 0 then 0 else TailPages(g, tail))
  }

  /** The pages the tail writes: those from chunk `n` up to the last used one. */
  function PagesOfTail(g: Geometry, pages: seq<int>, n: nat, tail: nat): (own: seq<int>)
    requires ValidGeometry(g)
    ensures forall x :: x in own ==> x in pages
    ensures |pages| == UsedPages(g, n, tail) ==>
              PagesBefore(g, pages, n) + own == pages && (tail > 0 ==> |own| == TailPages(g, tail))
  {
    var end := UsedPages(g, n, tail);
    if end <= |pages| then pages[At(n, g.blocks)..end] else []
  }

  /**
   * The rewritten prefill: reset only at position 0, replay the chunks from `from`, stop there unless this is
   * the last step, else run the tail (if any) and produce logits. `tokens` are cut at the end of the step.
   */
  function Step<S, P, H, L>(m: Model<S, P, H, L>, g: Geometry, device: Device<S, P, H>, tokens: seq<int>,
                            pages: seq<int>, from: nat, n: nat, final: bool)
    : (r: (Device<S, P, H>, Option<L>))
    requires ValidGeometry(g) && InPool(pages, |device.kv|)
    ensures |r.0.kv| == |device.kv| && r.0.slots == device.slots
  {
    var reset := if from == 0 then device.(scratch := m.zero) else device;
    var d := RunChunks(m, g, reset, tokens, pages, from, n);
    if final then LastPart(m, g, d, tokens, pages, n) else (d, None)
  }

  function LastPart<S, P, H, L>(m: Model<S, P, H, L>, g: Geometry, d: Device<S, P, H>, tokens: seq<int>,
                                pages: seq<int>, n: nat): (r: (Device<S, P, H>, Option<L>))
    requires ValidGeometry(g) && InPool(pages, |d.kv|)
    ensures |r.0.kv| == |d.kv| && r.0.slots == d.slots
  {
    var tail := TailTokens(g, tokens, n);
    var before, own := PagesBefore(g, pages, n), PagesOfTail(g, pages, n, |tail|);
    PoolOfPart(before, pages, |d.kv|);
    PoolOfPart(own, pages, |d.kv|);
    if tail == [] then (d, if d.traced.Some? then Some(m.head(d.traced.value)) else None)
    else (DeviceTail(m, d, before, own, tail, At(n, ChunkSize(g))),
          Some(m.tailLogits(d.scratch, Gather(d.kv, before), tail, At(n, ChunkSize(g)))))
  }

  /** `_prefill_traced_chunked_tp` as rewritten. */
  method PrefillTraced<S, P, H, L>(m: Model<S, P, H, L>, g: Geometry, device: Device<S, P, H>, tokens: seq<int>,
                                   pages: seq<int>, from: nat, n: nat, final: bool)
    returns (d: Device<S, P, H>, logits: Option<L>)
    requires ValidGeometry(g) && InPool(pages, |device.kv|)
    ensures (d, logits) == Step(m, g, device, tokens, pages, from, n, final)
  {
    d := device;
    if from == 0 {
      d := d.(scratch := m.zero);
    }
    d := ReplayChunks(m, g, d, tokens, pages, from, n);
    if !final {
      return d, None;
    }
    var last := LastPart(m, g, d, tokens, pages, n);
    d, logits := last.0, last.1;
  }

  /** A chunk sees only its own tokens, so the progress depends on the processed prefix alone. */
  lemma {:induction false} ChunksOfPrefix<S, P, H, L>(m: Model<S, P, H, L>, g: Geometry, tokens: seq<int>,
                                                      other: seq<int>, n: nat)
    requires At(n, ChunkSize(g)) <= |tokens| && At(n, ChunkSize(g)) <= |other|
    requires tokens[..At(n, ChunkSize(g))] == other[..At(n, ChunkSize(g))]
    ensures Chunks(m, g, tokens, n) == Chunks(m, g, other, n)
  {
    if n > 0 {
      var before, after := At(n - 1, ChunkSize(g)), At(n, ChunkSize(g));
      assert tokens[..before] == tokens[..after][..before] == other[..after][..before] == other[..before];
      assert tokens[before..after] == tokens[..after][before..] == other[..after][before..] == other[before..after];
      ChunksOfPrefix(m, g, tokens, other, n - 1);
    }
  }

  lemma MappedPart(before: seq<int>, own: seq<int>, whole: seq<int>, pages: seq<int>, physical: nat)
    requires Mapped(pages, physical) && whole == before + own && whole <= pages
    ensures Mapped(before + own, physical)
  {
  }

  lemma ReplayChunkHolds<S, P, H, L>(m: Model<S, P, H, L>, g: Geometry, d: Device<S, P, H>, tokens: seq<int>,
                                     pages: seq<int>, c: nat)
    requires Fits(g, pages, c + 1) && Mapped(pages, |d.kv|)
    requires Holds(d, PagesBefore(g, pages, c), Chunks(m, g, tokens, c))
    ensures Holds(ReplayChunk(m, g, d, tokens, pages, c), PagesBefore(g, pages, c + 1), Chunks(m, g, tokens, c + 1))
    ensures OnlyPages(d, ReplayChunk(m, g, d, tokens, pages, c), pages)
  {
    var before, own := PagesBefore(g, pages, c), OwnPages(g, pages, c);
    MappedPart(before, own, PagesBefore(g, pages, c + 1), pages, |d.kv|);
    ChunkHolds(m, g, d, Chunks(m, g, tokens, c), before, own, ChunkTokens(g, tokens, c), At(c, ChunkSize(g)));
  }

  /** Only the request's own pages change. */
  ghost predicate OnlyPages<S, P, H>(d: Device<S, P, H>, next: Device<S, P, H>, pages: seq<int>) {
    |next.kv| == |d.kv| && forall q :: 0 <= q < |d.kv| && q !in pages ==> next.kv[q] == d.kv[q]
  }

  /** Replaying chunks carries held progress forward and touches no page outside the request's. */
  lemma {:induction false} RunChunksHolds<S, P, H, L>(m: Model<S, P, H, L>, g: Geometry, d: Device<S, P, H>,
                                                      tokens: seq<int>, pages: seq<int>, from: nat, stop: nat)
    requires from <= stop && Fits(g, pages, stop) && Mapped(pages, |d.kv|)
    requires Holds(d, PagesBefore(g, pages, from), Chunks(m, g, tokens, from))
    ensures Holds(RunChunks(m, g, d, tokens, pages, from, stop), PagesBefore(g, pages, stop),
                  Chunks(m, g, tokens, stop))
    ensures OnlyPages(d, RunChunks(m, g, d, tokens, pages, from, stop), pages)
    decreases stop
  {
    if from < stop {
      var c := stop - 1;
      var before := RunChunks(m, g, d, tokens, pages, from, c);
      FitsEarlier(g, pages, c);
      RunChunksHolds(m, g, d, tokens, pages, from, c);
      ReplayChunkHolds(m, g, before, tokens, pages, c);
      OnlyPagesChain(d, before, ReplayChunk(m, g, before, tokens, pages, c), pages);
    }
  }

  lemma FitsEarlier(g: Geometry, pages: seq<int>, c: nat)
    requires Fits(g, pages, c + 1)
    ensures Fits(g, pages, c)
  {
  }

  lemma OnlyPagesChain<S, P, H>(d: Device<S, P, H>, middle: Device<S, P, H>, next: Device<S, P, H>, pages: seq<int>)
    requires OnlyPages(d, middle, pages) && OnlyPages(middle, next, pages)
    ensures OnlyPages(d, next, pages)
  {
  }

  /** The step starts from nothing at position 0 and from the held progress otherwise. */
  ghost predicate Ready<S, P, H, L>(m: Model<S, P, H, L>, g: Geometry, d: Device<S, P, H>, tokens: seq<int>,
                                    pages: seq<int>, from: nat)
  {
    from > 0 ==> Holds(d, PagesBefore(g, pages, from), Chunks(m, g, tokens, from))
  }

  /** An intermediate step leaves the progress of one more run of chunks, and the decode slots alone. */
  lemma IntermediateStep<S, P, H, L>(m: Model<S, P, H, L>, g: Geometry, d: Device<S, P, H>, tokens: seq<int>,
                                     pages: seq<int>, from: nat, n: nat)
    requires ValidGeometry(g) && from <= n && Fits(g, pages, n) && Mapped(pages, |d.kv|)
    requires Ready(m, g, d, tokens, pages, from)
    ensures var (next, logits) := Step(m, g, d, tokens, pages, from, n, false);
      && logits == None && next.slots == d.slots
      && Holds(next, PagesBefore(g, pages, n), Chunks(m, g, tokens, n))
      && OnlyPages(d, next, pages)
  {
    var reset := if from == 0 then d.(scratch := m.zero) else d;
    RunChunksHolds(m, g, reset, tokens, pages, from, n);
  }

  /** The device holds the outcome of a whole prefill. */
  ghost predicate HoldsWhole<S, P, H, L>(d: Device<S, P, H>, pages: seq<int>, w: Prefilled<S, P, L>) {
    InPool(pages, |d.kv|) && d.scratch == w.state && Gather(d.kv, pages) == w.pages
  }

  lemma LastPartHolds<S, P, H, L>(m: Model<S, P, H, L>, g: Geometry, d: Device<S, P, H>, tokens: seq<int>,
                                  pages: seq<int>, n: nat)
    requires ValidGeometry(g) && Mapped(pages, |d.kv|) && (n > 0 || |TailTokens(g, tokens, n)| > 0)
    requires |pages| == UsedPages(g, n, |TailTokens(g, tokens, n)|)
    requires Holds(d, PagesBefore(g, pages, n), Chunks(m, g, tokens, n))
    ensures var (next, logits) := LastPart(m, g, d, tokens, pages, n);
      var w := Whole(m, g, tokens, n);
      && logits == Some(w.logits) && HoldsWhole(next, pages, w)
      && OnlyPages(d, next, pages)
  {
    var tail, p, at := TailTokens(g, tokens, n), Chunks(m, g, tokens, n), At(n, ChunkSize(g));
    var before, own := PagesBefore(g, pages, n), PagesOfTail(g, pages, n, |tail|);
    if tail != [] {
      assert before + own == pages;
      TailHolds(m, d, p, before, own, tail, at);
    }
  }

  lemma TailHolds<S, P, H, L>(m: Model<S, P, H, L>, d: Device<S, P, H>, p: Progress<S, P, H>, before: seq<int>,
                              own: seq<int>, tokens: seq<int>, at: nat)
    requires Mapped(before + own, |d.kv|) && Holds(d, before, p)
    ensures InPool(before, |d.kv|) && InPool(own, |d.kv|)
    ensures var next := DeviceTail(m, d, before, own, tokens, at);
      && next.scratch == m.tailState(p.state, p.pages, tokens, at) && OnlyPages(d, next, before + own)
      && Gather(next.kv, before + own) ==
         p.pages + Pages(|own|, i => m.tailPage(p.state, p.pages, tokens, at, i))
  {
    var contents := Pages(|own|, i => m.tailPage(d.scratch, Gather(d.kv, before), tokens, at, i));
    ScatterAppends(d.kv, before, own, contents);
    assert contents == Pages(|own|, i => m.tailPage(p.state, p.pages, tokens, at, i));
  }

  /**
   * The last step leaves the recurrent, convolution and KV state and the logits of one whole prefill of the
   * same tokens.
   */
  lemma FinalStep<S, P, H, L>(m: Model<S, P, H, L>, g: Geometry, d: Device<S, P, H>, tokens: seq<int>,
                              pages: seq<int>, from: nat, n: nat)
    requires ValidGeometry(g) && from <= n && Mapped(pages, |d.kv|) && Ready(m, g, d, tokens, pages, from)
    requires |pages| == UsedPages(g, n, |TailTokens(g, tokens, n)|)
    requires n > 0 || |TailTokens(g, tokens, n)| > 0
    ensures var (next, logits) := Step(m, g, d, tokens, pages, from, n, true);
      var w := Whole(m, g, tokens, n);
      && logits == Some(w.logits) && HoldsWhole(next, pages, w) && next.slots == d.slots
      && OnlyPages(d, next, pages)
  {
    IntermediateStep(m, g, d, tokens, pages, from, n);
    var (middle, _) := Step(m, g, d, tokens, pages, from, n, false);
    LastPartHolds(m, g, middle, tokens, pages, n);
  }
}
