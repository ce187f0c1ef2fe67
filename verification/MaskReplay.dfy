/**
 * The causal mask of a folded query bundle, and its tail-only refresh at a new start
 * (scripts/ci/attention_mask_replay.cpp and .py, `causal_mask` of scripts/ci/attention_head_fold.py).
 */
module MaskReplay {
  import opened Arithmetic
  import opened HeadFold
  import opened TileLayout

  /** BF16 words of the mask: negative infinity hides a cache position, zero leaves it visible. */
  const HIDDEN: nat := 0xff80

  type Tile = t: seq<nat> | |t| == 1024 witness seq(1024, _ => 0)

  // ----- The full causal mask

  /** `arange(start, start + rows).reshape(1, rows, 1).expand(2, rows, 6).reshape(-1)`. */
  function CausalPositions(rows: nat, start: nat): seq<int> {
    Flat(Flat(seq(2, _ => seq(rows, (t: nat) => seq(6, _ => start + t)))))
  }

  /** `mask_position` within one group: the position of the token that folded head `head` belongs to. */
  function TokenPosition(start: nat, rows: nat, head: nat): nat
    requires rows > 0
  {
    start + Remainder(head, rows * 6) / 6
  }

  lemma CausalPositionsByHead(rows: nat, start: nat, head: nat)
    requires rows > 0 && head < rows * 12
    ensures |CausalPositions(rows, start)| == rows * 12 &&
              CausalPositions(rows, start)[head] == TokenPosition(start, rows, head)
  {
    var m := seq(2, _ => seq(rows, (t: nat) => seq(6, _ => start + t)));
    FoldedDigits(rows, head);
    var kv, rest := Quotient(head, rows * 6), Remainder(head, rows * 6);
    assert Cuboid(m, rows, 6);
    FlatTwiceEntry(m, rows, 6, kv, rest / 6, rest % 6);
    HeadMajorIndex(rows, rest / 6, kv, rest % 6);
    FoldedLength(rows);
  }

  /** Entry (head, position) of `causal_mask(rows, start, capacity)`. */
  function CausalWord(rows: nat, start: nat, head: nat, position: nat): nat
    requires rows > 0
  {
    if position > TokenPosition(start, rows, head) then HIDDEN else 0
  }

  // ----- The refresh kernel

  /** A bundle's mask: `batches` groups of `rows` tokens, the first at token `offset`, over `capacity` positions. */
  datatype Shape = Shape(rows: nat, batches: nat, offset: nat, capacity: nat)

  predicate ValidShape(s: Shape) {
    1 <= s.rows <= 8 && 1 <= s.batches <= 3 && s.capacity % 256 == 0 && s.capacity > 0
  }

  function HeadTiles(s: Shape): nat { (s.rows * 12 + 31) / 32 }

  /** Tiles across the cache positions. */
  function Width(s: Shape): nat { s.capacity / 32 }

  /** Tile rows of the whole mask: the head tiles of every batch. */
  function Strips(s: Shape): nat { At(s.batches, HeadTiles(s)) }

  /** The batch of a tile row, and its head tile there. */
  function BatchOf(s: Shape, strip: nat): nat
    requires ValidShape(s)
  {
    Quotient(strip, HeadTiles(s))
  }

  function HeadTileOf(s: Shape, strip: nat): nat
    requires ValidShape(s)
  {
    Remainder(strip, HeadTiles(s))
  }

  function PageCount(s: Shape): nat { At(Strips(s), Width(s)) }

  /** The word the kernel writes for folded head `head` of batch `batch` at cache position `position`. */
  function TailWord(s: Shape, start: nat, batch: nat, head: nat, position: nat): nat
    requires s.rows > 0
  {
    if head >= s.rows * 12 || position > TokenPosition(start + s.offset + At(batch, s.rows), s.rows, head)
    then HIDDEN else 0
  }

  /** Writing one entry leaves every other entry of the tile. */
  method Put(words: array<nat>, row: nat, c: nat, value: nat)
    requires words.Length == 1024 && row < 32 && c < 32
    modifies words
    ensures words[FaceIndex(row, c)] == value
    ensures forall r, d :: 0 <= r < 32 && 0 <= d < 32 && (r != row || d != c) ==>
              words[FaceIndex(r, d)] == old(words[FaceIndex(r, d)])
  {
    forall r, d | 0 <= r < 32 && 0 <= d < 32 && (r != row || d != c)
      ensures FaceIndex(r, d) != FaceIndex(row, c)
    {
      FaceIndexInverts(r, d);
      FaceIndexInverts(row, c);
    }
    words[FaceIndex(row, c)] := value;
  }

  /** The column loop of one tile row. */
  method BuildRow(words: array<nat>, s: Shape, start: nat, batch: nat, head: nat, row: nat, first: nat)
    requires words.Length == 1024 && s.rows > 0 && row < 32
    modifies words
    ensures forall c :: 0 <= c < 32 ==> words[FaceIndex(row, c)] == TailWord(s, start, batch, head, first + c)
    ensures forall r, d :: 0 <= r < 32 && 0 <= d < 32 && r != row ==>
              words[FaceIndex(r, d)] == old(words[FaceIndex(r, d)])
  {
    for c := 0 to 32
      invariant forall d :: 0 <= d < c ==> words[FaceIndex(row, d)] == TailWord(s, start, batch, head, first + d)
      invariant forall r, d :: 0 <= r < 32 && 0 <= d < 32 && r != row ==>
                  words[FaceIndex(r, d)] == old(words[FaceIndex(r, d)])
    {
      Put(words, row, c, TailWord(s, start, batch, head, first + c));
    }
  }

  /** Tile row `row` of a tile whose first head is `firstHead` and first cache position `first`. */
  predicate TailRow(s: Shape, start: nat, batch: nat, firstHead: nat, first: nat, words: seq<nat>, row: nat)
    requires s.rows > 0 && |words| == 1024 && row < 32
  {
    forall c :: 0 <= c < 32 ==> words[FaceIndex(row, c)] == TailWord(s, start, batch, firstHead + row, first + c)
  }

  /** Contents of the tail page of strip `strip` and column tile `column`. */
  predicate TailTile(s: Shape, start: nat, strip: nat, column: nat, tile: Tile)
    requires ValidShape(s)
  {
    forall row :: 0 <= row < 32 ==> StripRow(s, start, strip, column, tile, row)
  }

  /** Tile row `row` of the tail page of strip `strip` and column tile `column`. */
  predicate StripRow(s: Shape, start: nat, strip: nat, column: nat, tile: Tile, row: nat)
    requires ValidShape(s) && row < 32
  {
    TailRow(s, start, BatchOf(s, strip), HeadTileOf(s, strip) * 32, s.capacity - 256 + column * 32, tile, row)
  }

  /** Rows that kept their words kept what they hold. */
  lemma TailRowKept(s: Shape, start: nat, batch: nat, firstHead: nat, first: nat, before: seq<nat>, after: seq<nat>,
                    r: nat)
    requires s.rows > 0 && |before| == |after| == 1024 && r < 32
    requires TailRow(s, start, batch, firstHead, first, before, r)
    requires forall c :: 0 <= c < 32 ==> after[FaceIndex(r, c)] == before[FaceIndex(r, c)]
    ensures TailRow(s, start, batch, firstHead, first, after, r)
  {
  }

  /** The row loop of a task. */
  method BuildRows(words: array<nat>, s: Shape, start: nat, batch: nat, firstHead: nat, first: nat)
    requires words.Length == 1024 && s.rows > 0
    modifies words
    ensures forall r :: 0 <= r < 32 ==> TailRow(s, start, batch, firstHead, first, words[..], r)
  {
    for row := 0 to 32
      invariant forall r :: 0 <= r < row ==> TailRow(s, start, batch, firstHead, first, words[..], r)
    {
      ghost var before := words[..];
      BuildRow(words, s, start, batch, firstHead + row, row, first);
      forall r | 0 <= r < row ensures TailRow(s, start, batch, firstHead, first, words[..], r) {
        TailRowKept(s, start, batch, firstHead, first, before, words[..], r);
      }
    }
  }

  /** The tile one task builds. */
  method BuildTile(s: Shape, start: nat, batch: nat, headTile: nat, column: nat, ghost strip: nat) returns (tile: Tile)
    requires ValidShape(s) && batch == BatchOf(s, strip) && headTile == HeadTileOf(s, strip)
    ensures TailTile(s, start, strip, column, tile)
  {
    var words := new nat[1024](_ => 0);
    BuildRows(words, s, start, batch, headTile * 32, s.capacity - 256 + column * 32);
    tile := words[..];
    forall row | 0 <= row < 32 ensures StripRow(s, start, strip, column, tile, row) {
      assert TailRow(s, start, batch, headTile * 32, s.capacity - 256 + column * 32, words[..], row);
    }
  }

  // ----- Pages

  /** The page of tile (strip, column tile). */
  function Page(s: Shape, strip: nat, columnTile: nat): nat {
    At(strip, Width(s)) + columnTile
  }

  lemma PageInRange(s: Shape, strip: nat, columnTile: nat)
    requires strip < Strips(s) && columnTile < Width(s)
    ensures Page(s, strip, columnTile) < PageCount(s)
  {
    AtGrows(strip, Strips(s), Width(s));
  }

  /** A page belongs to one tile only. */
  lemma PagesDistinct(s: Shape, strip: nat, columnTile: nat, strip': nat, columnTile': nat)
    requires columnTile < Width(s) && columnTile' < Width(s)
    requires Page(s, strip, columnTile) == Page(s, strip', columnTile')
    ensures strip == strip' && columnTile == columnTile'
  {
    if strip < strip' {
      AtGrows(strip, strip', Width(s));
    } else if strip' < strip {
      AtGrows(strip', strip, Width(s));
    }
  }

  /** The kernel's task arithmetic: strip `task / 8` is (batch, head tile), and its page is in the last eight. */
  lemma TaskPage(s: Shape, task: nat)
    requires ValidShape(s)
    ensures var headTiles := HeadTiles(s);
      var batch, headTile, column := task / (headTiles * 8), (task / 8) % headTiles, task % 8;
      && headTiles > 0 && batch == BatchOf(s, task / 8) && headTile == HeadTileOf(s, task / 8)
      && (batch * headTiles + headTile) * (s.capacity / 32) + s.capacity / 32 - 8 + column ==
         Page(s, task / 8, Width(s) - 8 + column)
  {
    var headTiles := HeadTiles(s);
    if headTiles == 1 {
    } else if headTiles == 2 {
    } else {
      assert headTiles == 3;
    }
    QuotientIsDivision(task / 8, headTiles);
    RemainderIsMod(task / 8, headTiles);
    AtIsProduct(task / 8, Width(s));
  }

  // ----- The refresh over all tasks

  /** The tail page of a task. */
  function TaskTail(s: Shape, task: nat): nat
    requires ValidShape(s)
  {
    Page(s, task / 8, Width(s) - 8 + task % 8)
  }

  lemma TaskTailInRange(s: Shape, task: nat)
    requires ValidShape(s) && task < Strips(s) * 8
    ensures TaskTail(s, task) < PageCount(s)
  {
    PageInRange(s, task / 8, Width(s) - 8 + task % 8);
  }

  /** Every tail page is written by exactly one task. */
  lemma TailPagesHaveOneTask(s: Shape, strip: nat, columnTile: nat, task: nat)
    requires ValidShape(s) && strip < Strips(s) && columnTile < Width(s) && task < Strips(s) * 8
    ensures Page(s, strip, columnTile) == TaskTail(s, task) <==>
            columnTile >= Width(s) - 8 && task == strip * 8 + (columnTile - (Width(s) - 8))
  {
    if Page(s, strip, columnTile) == TaskTail(s, task) {
      PagesDistinct(s, strip, columnTile, task / 8, Width(s) - 8 + task % 8);
    }
  }

  /** The tail pages of the first `n` tasks hold the mask of `start`. */
  predicate TailsHold(s: Shape, start: nat, pages: seq<Tile>, n: nat)
    requires ValidShape(s) && |pages| == PageCount(s) && n <= Strips(s) * 8
  {
    forall task :: 0 <= task < n ==> TailHolds(s, start, pages, task)
  }

  predicate TailHolds(s: Shape, start: nat, pages: seq<Tile>, task: nat)
    requires ValidShape(s) && |pages| == PageCount(s) && task < Strips(s) * 8
  {
    TaskTailInRange(s, task);
    TailTile(s, start, task / 8, task % 8, pages[TaskTail(s, task)])
  }

  /** Every page outside the last 256 positions is visible throughout. */
  predicate FrontClear(s: Shape, pages: seq<Tile>)
    requires ValidShape(s) && |pages| == PageCount(s)
  {
    forall strip, columnTile :: 0 <= strip < Strips(s) && 0 <= columnTile < Width(s) - 8 ==>
      PageClear(s, pages, strip, columnTile)
  }

  predicate PageClear(s: Shape, pages: seq<Tile>, strip: nat, columnTile: nat)
    requires ValidShape(s) && |pages| == PageCount(s) && strip < Strips(s) && columnTile < Width(s)
  {
    PageInRange(s, strip, columnTile);
    forall i :: 0 <= i < 1024 ==> pages[Page(s, strip, columnTile)][i] == 0
  }

  lemma TaskWriteKeepsRest(s: Shape, start: nat, before: seq<Tile>, task: nat, tile: Tile)
    requires ValidShape(s) && |before| == PageCount(s) && task < Strips(s) * 8
    requires FrontClear(s, before) && TailsHold(s, start, before, task) && TailTile(s, start, task / 8, task % 8, tile)
    ensures TaskTail(s, task) < |before|
    ensures FrontClear(s, before[TaskTail(s, task) := tile])
    ensures TailsHold(s, start, before[TaskTail(s, task) := tile], task + 1)
  {
    TaskTailInRange(s, task);
    var after := before[TaskTail(s, task) := tile];
    forall strip, columnTile | 0 <= strip < Strips(s) && 0 <= columnTile < Width(s) - 8
      ensures PageClear(s, after, strip, columnTile)
    {
      PageInRange(s, strip, columnTile);
      TailPagesHaveOneTask(s, strip, columnTile, task);
      assert PageClear(s, before, strip, columnTile);
    }
    forall t | 0 <= t < task + 1 ensures TailHolds(s, start, after, t) {
      TaskTailInRange(s, t);
      TailPagesHaveOneTask(s, t / 8, Width(s) - 8 + t % 8, task);
      if t < task {
        assert TailHolds(s, start, before, t);
      }
    }
  }

  /** All tasks of one refresh; only tail pages are written. */
  method Refresh(mask: array<Tile>, s: Shape, start: nat)
    requires ValidShape(s) && mask.Length == PageCount(s) && FrontClear(s, mask[..])
    modifies mask
    ensures FrontClear(s, mask[..]) && TailsHold(s, start, mask[..], Strips(s) * 8)
  {
    for task := 0 to Strips(s) * 8
      invariant FrontClear(s, mask[..]) && TailsHold(s, start, mask[..], task)
    {
      var headTiles := HeadTiles(s);
      TaskPage(s, task);
      TaskTailInRange(s, task);
      var batch, headTile, column := task / (headTiles * 8), (task / 8) % headTiles, task % 8;
      var tile := BuildTile(s, start, batch, headTile, column, task / 8);
      var page := (batch * headTiles + headTile) * (s.capacity / 32) + s.capacity / 32 - 8 + column;
      ghost var before := mask[..];
      TaskWriteKeepsRest(s, start, before, task, tile);
      mask[page] := tile;
      assert mask[..] == before[page := tile];
    }
  }

  // ----- The whole mask

  /** The mask entry of folded head `head` of batch `batch` at a cache position. */
  function Entry(s: Shape, pages: seq<Tile>, batch: nat, head: nat, position: nat): nat
    requires ValidShape(s) && |pages| == PageCount(s)
    requires batch < s.batches && head < s.rows * 12 && position < s.capacity
  {
    ColumnInRange(s, position);
    PageInRange(s, StripOf(s, batch, head), position / 32);
    pages[Page(s, StripOf(s, batch, head), position / 32)][FaceIndex(head % 32, position % 32)]
  }

  /** The tile row of folded head `head` of batch `batch`. */
  function StripOf(s: Shape, batch: nat, head: nat): (strip: nat)
    requires ValidShape(s) && batch < s.batches && head < s.rows * 12
    ensures strip < Strips(s) && BatchOf(s, strip) == batch && HeadTileOf(s, strip) == head / 32
  {
    StripDigits(s.batches, HeadTiles(s), batch, head / 32);
    At(batch, HeadTiles(s)) + head / 32
  }

  lemma StripDigits(batches: nat, headTiles: nat, batch: nat, headTile: nat)
    requires batch < batches && headTile < headTiles
    ensures var strip := At(batch, headTiles) + headTile;
      strip < At(batches, headTiles) && Quotient(strip, headTiles) == batch && Remainder(strip, headTiles) == headTile
  {
    AtGrows(batch, batches, headTiles);
    QuotientShift(headTile, batch, headTiles);
  }

  lemma ColumnInRange(s: Shape, position: nat)
    requires ValidShape(s) && position < s.capacity
    ensures position / 32 < Width(s)
  {
    var families := s.capacity / 256;
    assert s.capacity == families * 256 && Width(s) == families * 8;
  }

  lemma TailEntry(s: Shape, start: nat, pages: seq<Tile>, strip: nat, row: nat, column: nat, c: nat)
    requires ValidShape(s) && |pages| == PageCount(s) && TailsHold(s, start, pages, Strips(s) * 8)
    requires strip < Strips(s) && row < 32 && column < 8 && c < 32
    ensures Page(s, strip, Width(s) - 8 + column) < |pages|
    ensures pages[Page(s, strip, Width(s) - 8 + column)][FaceIndex(row, c)] ==
            TailWord(s, start, BatchOf(s, strip), HeadTileOf(s, strip) * 32 + row, s.capacity - 256 + column * 32 + c)
  {
    var task := strip * 8 + column;
    assert task / 8 == strip && task % 8 == column;
    TaskTailInRange(s, task);
    assert TailHolds(s, start, pages, task);
    TailTileEntry(s, start, strip, column, pages[TaskTail(s, task)], row, c);
  }

  lemma TailTileEntry(s: Shape, start: nat, strip: nat, column: nat, tile: Tile, row: nat, c: nat)
    requires ValidShape(s) && TailTile(s, start, strip, column, tile) && row < 32 && column < 8 && c < 32
    ensures tile[FaceIndex(row, c)] ==
            TailWord(s, start, BatchOf(s, strip), HeadTileOf(s, strip) * 32 + row, s.capacity - 256 + column * 32 + c)
  {
    assert StripRow(s, start, strip, column, tile, row);
  }

  lemma FrontEntry(s: Shape, start: nat, batch: nat, head: nat, position: nat)
    requires ValidShape(s) && s.capacity - 256 <= start && position / 32 < Width(s) - 8
    ensures CausalWord(s.rows, start + s.offset + At(batch, s.rows), head, position) == 0
  {
  }

  lemma ClearEntry(s: Shape, pages: seq<Tile>, strip: nat, columnTile: nat, row: nat, c: nat)
    requires ValidShape(s) && |pages| == PageCount(s) && FrontClear(s, pages)
    requires strip < Strips(s) && columnTile < Width(s) - 8 && row < 32 && c < 32
    ensures Page(s, strip, columnTile) < |pages| && pages[Page(s, strip, columnTile)][FaceIndex(row, c)] == 0
  {
    assert PageClear(s, pages, strip, columnTile);
    PageInRange(s, strip, columnTile);
  }

  lemma PositionDigits(s: Shape, position: nat)
    requires ValidShape(s) && Width(s) - 8 <= position / 32 && position < s.capacity
    ensures var column := position / 32 - (Width(s) - 8);
      column < 8 && s.capacity - 256 + column * 32 + position % 32 == position
  {
    var families := s.capacity / 256;
    assert s.capacity == families * 256 && Width(s) == families * 8;
    assert position == (position / 32) * 32 + position % 32;
  }

  lemma TailWordIsCausal(s: Shape, start: nat, batch: nat, head: nat, position: nat, headTile: nat, row: nat)
    requires s.rows > 0 && head < s.rows * 12 && head == headTile * 32 + row
    ensures TailWord(s, start, batch, headTile * 32 + row, position) ==
            CausalWord(s.rows, start + s.offset + At(batch, s.rows), head, position)
  {
  }

  lemma TailEntryIsCausal(s: Shape, start: nat, pages: seq<Tile>, strip: nat, batch: nat, head: nat, position: nat)
    requires ValidShape(s) && |pages| == PageCount(s) && TailsHold(s, start, pages, Strips(s) * 8)
    requires head < s.rows * 12 && Width(s) - 8 <= position / 32 && position < s.capacity
    requires strip < Strips(s) && BatchOf(s, strip) == batch && HeadTileOf(s, strip) == head / 32
    ensures Page(s, strip, position / 32) < |pages|
    ensures pages[Page(s, strip, position / 32)][FaceIndex(head % 32, position % 32)] ==
            CausalWord(s.rows, start + s.offset + At(batch, s.rows), head, position)
  {
    PositionDigits(s, position);
    TailEntry(s, start, pages, strip, head % 32, position / 32 - (Width(s) - 8), position % 32);
    TailWordIsCausal(s, start, batch, head, position, head / 32, head % 32);
  }

  /**
   * A mask that started clear and was refreshed at `start` is the stacked full causal mask of its groups: for
   * every start in the last 256 positions, every group, folded head and cache position.
   */
  lemma RefreshedMaskIsCausal(s: Shape, start: nat, pages: seq<Tile>, batch: nat, head: nat, position: nat)
    requires ValidShape(s) && |pages| == PageCount(s) && s.capacity - 256 <= start
    requires FrontClear(s, pages) && TailsHold(s, start, pages, Strips(s) * 8)
    requires batch < s.batches && head < s.rows * 12 && position < s.capacity
    ensures Entry(s, pages, batch, head, position) ==
            CausalWord(s.rows, start + s.offset + At(batch, s.rows), head, position)
  {
    var strip, columnTile := StripOf(s, batch, head), position / 32;
    if columnTile < Width(s) - 8 {
      ClearEntry(s, pages, strip, columnTile, head % 32, position % 32);
      FrontEntry(s, start, batch, head, position);
    } else {
      TailEntryIsCausal(s, start, pages, strip, batch, head, position);
    }
  }

  /** The tile rows past the last folded head are hidden throughout the last 256 positions. */
  lemma PaddingIsHidden(s: Shape, start: nat, pages: seq<Tile>, strip: nat, row: nat, column: nat, c: nat)
    requires ValidShape(s) && |pages| == PageCount(s) && TailsHold(s, start, pages, Strips(s) * 8)
    requires strip < Strips(s) && row < 32 && column < 8 && c < 32 && HeadTileOf(s, strip) * 32 + row >= s.rows * 12
    ensures Page(s, strip, Width(s) - 8 + column) < |pages|
    ensures pages[Page(s, strip, Width(s) - 8 + column)][FaceIndex(row, c)] == HIDDEN
  {
    TailEntry(s, start, pages, strip, row, column, c);
  }
}
