/**
 * The tile permutation kernel (scripts/ci/attention_fold_dma.cpp): folds or unfolds query rows directly on tiled
 * BF16 storage. A tile is 512 32-bit words; a tile row is eight words in each of its two faces.
 */
module FoldDma {
  import opened Arithmetic
  import opened Bits
  import opened HeadFold
  import opened Results

  type Tile = t: seq<Word> | |t| == 512 witness seq(512, _ => 0)

  /** First word of row `r` in the left face; the right face lies 128 words (512 bytes) further. */
  function RowStart(r: nat): (i: nat)
    requires r < 32
    ensures i + 128 + 8 <= 512
  {
    (r / 16) * 256 + (r % 16) * 8
  }

  /** The 16 words of a tile row. */
  function TileRow(words: seq<Word>, base: nat, r: nat): (row: seq<Word>)
    requires r < 32 && base + 512 <= |words|
    ensures |row| == 16
  {
    var at := base + RowStart(r);
    words[at..at + 8] + words[at + 128..at + 136]
  }

  const ZERO_ROW: seq<Word> := [0, 0, 0, 0, 0, 0, 0, 0, 0, 0, 0, 0, 0, 0, 0, 0]

  /** Different rows share no word. */
  lemma RowsDisjoint(r: nat, s: nat)
    requires r < 32 && s < 32 && r != s
    ensures RowStart(r) + 8 <= RowStart(s) || RowStart(s) + 8 <= RowStart(r)
    ensures RowStart(r) + 136 <= RowStart(s) || RowStart(s) + 8 <= RowStart(r) + 128
    ensures RowStart(s) + 136 <= RowStart(r) || RowStart(r) + 8 <= RowStart(s) + 128
  {
    var f, i, g, j := r / 16, r % 16, s / 16, s % 16;
    assert f < 2 && g < 2 && r == f * 16 + i && s == g * 16 + j;
    assert f == g ==> i != j;
  }

  /** The words a copy into row `r` at `base` writes. */
  predicate InRow(i: int, base: nat, r: nat)
    requires r < 32
  {
    base + RowStart(r) <= i < base + RowStart(r) + 8 || base + RowStart(r) + 128 <= i < base + RowStart(r) + 136
  }

  lemma OtherRowKept(before: seq<Word>, after: seq<Word>, base: nat, r: nat, s: nat)
    requires r < 32 && s < 32 && r != s && base + 512 <= |before| == |after|
    requires forall i :: 0 <= i < |before| && !InRow(i, base, r) ==> after[i] == before[i]
    ensures TileRow(after, base, s) == TileRow(before, base, s)
  {
    RowsDisjoint(r, s);
    var at := base + RowStart(s);
    SameSlice(before, after, at, at + 8);
    SameSlice(before, after, at + 128, at + 136);
  }

  lemma SameSlice(before: seq<Word>, after: seq<Word>, from: nat, to: nat)
    requires from <= to <= |before| == |after| && forall i :: from <= i < to ==> after[i] == before[i]
    ensures after[from..to] == before[from..to]
  {
  }

  // ----- Row selection

  /** A row of a tile. */
  datatype Place = Place(tile: nat, row: nat)

  /** The staged tile and its row that target row `row` of task tile `index` comes from, if any. */
  function RowSource(rows: nat, inverse: bool, index: nat, row: nat): Option<Place>
    requires rows > 0
  {
    if inverse then
      if row >= 12 then None
      else
        var head := (row / 6) * (rows * 6) + index * 6 + row % 6;
        Some(Place(head / 32, head % 32))
    else
      var head := index * 32 + row;
      if head >= rows * 12 then None
      else
        var rest := Remainder(head, rows * 6);
        Some(Place(rest / 6, Quotient(head, rows * 6) * 6 + rest % 6))
  }

  /** Tiles the kernel stages. */
  function SourceTiles(rows: nat, inverse: bool): nat {
    if inverse then (rows * 12 + 31) / 32 else rows
  }

  /** Every selected row lies in a staged tile. */
  lemma RowSourceStaged(rows: nat, inverse: bool, index: nat, row: nat)
    requires 0 < rows && row < 32 && (inverse ==> index < rows)
    ensures match RowSource(rows, inverse, index, row)
            case None => true
            case Some(place) => place.tile < SourceTiles(rows, inverse) && place.row < 32
  {
    if inverse {
      if row < 12 {
        var head := (row / 6) * (rows * 6) + index * 6 + row % 6;
        assert head < rows * 12 by {
          assert row / 6 == 0 || row / 6 == 1;
        }
      }
    } else if index * 32 + row < rows * 12 {
      FoldedDigits(rows, index * 32 + row);
    }
  }

  // ----- The kernel

  /** Eight words from one place of the buffer to another. */
  method CopyWords(buffer: array<Word>, from: nat, target: nat)
    requires from + 8 <= target && target + 8 <= buffer.Length
    modifies buffer
    ensures forall i :: target <= i < target + 8 ==> buffer[i] == old(buffer[from + (i - target)])
    ensures forall i :: 0 <= i < buffer.Length && !(target <= i < target + 8) ==> buffer[i] == old(buffer[i])
  {
    for word := 0 to 8
      invariant forall i :: target <= i < target + word ==> buffer[i] == old(buffer[from + (i - target)])
      invariant forall i :: 0 <= i < buffer.Length && !(target <= i < target + word) ==> buffer[i] == old(buffer[i])
    {
      buffer[target + word] := buffer[from + word];
    }
  }

  /** One tile row: eight words in each face. */
  method CopyRow(buffer: array<Word>, source: nat, sourceRow: nat, target: nat, targetRow: nat)
    requires sourceRow < 32 && targetRow < 32
    requires source + 512 <= target && target + 512 <= buffer.Length
    modifies buffer
    ensures TileRow(buffer[..], target, targetRow) == old(TileRow(buffer[..], source, sourceRow))
    ensures forall i :: 0 <= i < buffer.Length && !InRow(i, target, targetRow) ==> buffer[i] == old(buffer[i])
  {
    var from, at := source + RowStart(sourceRow), target + RowStart(targetRow);
    for face := 0 to 2
      invariant forall i :: 0 <= i < buffer.Length && !InRow(i, target, targetRow) ==> buffer[i] == old(buffer[i])
      invariant face > 0 ==> forall i :: at <= i < at + 8 ==> buffer[i] == old(buffer[from + (i - at)])
      invariant face > 1 ==> forall i :: at + 128 <= i < at + 136 ==> buffer[i] == old(buffer[from + (i - at)])
    {
      CopyWords(buffer, from + face * 128, at + face * 128);
    }
    RowMoved(old(buffer[..]), buffer[..], source, sourceRow, target, targetRow);
  }

  lemma RowMoved(before: seq<Word>, after: seq<Word>, source: nat, sourceRow: nat, target: nat, targetRow: nat)
    requires sourceRow < 32 && targetRow < 32 && source + 512 <= |before| && target + 512 <= |after|
    requires var from, at := source + RowStart(sourceRow), target + RowStart(targetRow);
      && (forall i :: at <= i < at + 8 ==> after[i] == before[from + (i - at)])
      && (forall i :: at + 128 <= i < at + 136 ==> after[i] == before[from + (i - at)])
    ensures TileRow(after, target, targetRow) == TileRow(before, source, sourceRow)
  {
    var from, at := source + RowStart(sourceRow), target + RowStart(targetRow);
    SameWords(before, after, from, at);
    SameWords(before, after, from + 128, at + 128);
  }

  lemma SameWords(before: seq<Word>, after: seq<Word>, from: nat, at: nat)
    requires from + 8 <= |before| && at + 8 <= |after|
    requires forall i :: at <= i < at + 8 ==> after[i] == before[from + (i - at)]
    ensures after[at..at + 8] == before[from..from + 8]
  {
  }

  /** The tiles a task stages: its column of tile rows first, first + 1, ... */
  function StagedTiles(source: seq<Tile>, first: nat, count: nat, column: nat): (staged: seq<Tile>)
    requires column < 8 && (first + count) * 8 <= |source|
    ensures |staged| == count && forall t :: 0 <= t < count ==> staged[t] == source[(t + first) * 8 + column]
  {
    seq(count, (t: nat) requires t < count => source[(t + first) * 8 + column])
  }

  /** Target row `row` has been filled from its source. */
  predicate RowIs(words: seq<Word>, base: nat, staged: seq<Tile>, place: Option<Place>, row: nat)
    requires row < 32 && base + 512 <= |words|
  {
    match place
    case None => TileRow(words, base, row) == ZERO_ROW
    case Some(p) => p.tile < |staged| && p.row < 32 && TileRow(words, base, row) == TileRow(staged[p.tile], 0, p.row)
  }

  /** Tile `t` of the staging area. */
  predicate Stages(words: seq<Word>, t: nat, tile: Tile) {
    t * 512 + 512 <= |words| && words[t * 512..t * 512 + 512] == tile
  }

  /** The staging area holds the staged tiles. */
  predicate Holds(words: seq<Word>, staged: seq<Tile>) {
    |staged| * 512 <= |words| && forall t :: 0 <= t < |staged| ==> Stages(words, t, staged[t])
  }

  lemma SliceKept(before: seq<Word>, after: seq<Word>, kept: nat, from: nat, to: nat)
    requires from <= to <= kept <= |before| && kept <= |after| && after[..kept] == before[..kept]
    ensures after[from..to] == before[from..to]
  {
    assert after[from..to] == after[..kept][from..to] == before[..kept][from..to] == before[from..to];
  }

  /** A staged tile stays while the words up to its end do. */
  lemma StagesKept(before: seq<Word>, after: seq<Word>, kept: nat, t: nat, tile: Tile)
    requires Stages(before, t, tile) && t * 512 + 512 <= kept <= |before| && kept <= |after|
    requires after[..kept] == before[..kept]
    ensures Stages(after, t, tile)
  {
    SliceKept(before, after, kept, t * 512, t * 512 + 512);
  }

  /** One asynchronous tile read. */
  method StageTile(buffer: array<Word>, t: nat, tile: Tile)
    requires t * 512 + 512 <= buffer.Length
    modifies buffer
    ensures Stages(buffer[..], t, tile) && buffer[..t * 512] == old(buffer[..t * 512])
  {
    var base := t * 512;
    for word := 0 to 512
      invariant forall i :: base <= i < base + word ==> buffer[i] == tile[i - base]
      invariant forall i :: 0 <= i < base ==> buffer[i] == old(buffer[i])
    {
      buffer[base + word] := tile[word];
    }
    assert buffer[..][base..base + 512] == tile;
  }

  /** Staging: one asynchronous tile read per source tile. */
  method StageTiles(buffer: array<Word>, staged: seq<Tile>)
    requires |staged| * 512 <= buffer.Length
    modifies buffer
    ensures Holds(buffer[..], staged)
  {
    for tile := 0 to |staged|
      invariant forall t :: 0 <= t < tile ==> Stages(buffer[..], t, staged[t])
    {
      ghost var before := buffer[..];
      StageTile(buffer, tile, staged[tile]);
      assert buffer[..][..tile * 512] == before[..tile * 512];
      forall t | 0 <= t < tile ensures Stages(buffer[..], t, staged[t]) {
        StagesKept(before, buffer[..], tile * 512, t, staged[t]);
      }
    }
  }

  lemma StagedRow(words: seq<Word>, staged: seq<Tile>, t: nat, r: nat)
    requires Holds(words, staged) && t < |staged| && r < 32
    ensures t * 512 + 512 <= |words| && TileRow(words, t * 512, r) == TileRow(staged[t], 0, r)
  {
    assert Stages(words, t, staged[t]);
    RowOfSlice(words, t * 512, r);
  }

  lemma SliceOfSlice(words: seq<Word>, base: nat, n: nat, i: nat, j: nat)
    requires base + n <= |words| && i <= j <= n
    ensures words[base..base + n][i..j] == words[base + i..base + j]
  {
    var inner, outer := words[base..base + n][i..j], words[base + i..base + j];
    assert |inner| == |outer|;
    forall k | 0 <= k < |inner| ensures inner[k] == outer[k] {
      assert inner[k] == words[base + (i + k)];
    }
  }

  lemma HoldsAfter(before: seq<Word>, after: seq<Word>, staged: seq<Tile>, output: nat)
    requires Holds(before, staged) && |before| == |after| && |staged| * 512 <= output <= |after|
    requires after[..output] == before[..output]
    ensures Holds(after, staged)
  {
    forall t | 0 <= t < |staged| ensures Stages(after, t, staged[t]) {
      StagesKept(before, after, output, t, staged[t]);
    }
  }

  lemma ZeroRows(words: seq<Word>, base: nat, r: nat)
    requires r < 32 && base + 512 <= |words| && forall i :: base <= i < base + 512 ==> words[i] == 0
    ensures TileRow(words, base, r) == ZERO_ROW
  {
  }

  /** One target row: copied from its place, or left zero. */
  method FillRow(buffer: array<Word>, staged: seq<Tile>, output: nat, place: Option<Place>, row: nat)
    requires row < 32 && |staged| * 512 <= output && output + 512 == buffer.Length && Holds(buffer[..], staged)
    requires place.Some? ==> place.value.tile < |staged| && place.value.row < 32
    requires TileRow(buffer[..], output, row) == ZERO_ROW
    modifies buffer
    ensures Holds(buffer[..], staged) && RowIs(buffer[..], output, staged, place, row)
    ensures forall r :: 0 <= r < 32 && r != row ==>
              TileRow(buffer[..], output, r) == TileRow(old(buffer[..]), output, r)
  {
    if place.None? {
      return;
    }
    ghost var before := buffer[..];
    StagedRow(before, staged, place.value.tile, place.value.row);
    MulOrder(512, place.value.tile + 1, |staged|);
    CopyRow(buffer, place.value.tile * 512, place.value.row, output, row);
    assert buffer[..output] == before[..output];
    HoldsAfter(before, buffer[..], staged, output);
    forall r | 0 <= r < 32 && r != row ensures TileRow(buffer[..], output, r) == TileRow(before, output, r) {
      OtherRowKept(before, buffer[..], output, row, r);
    }
  }

  /** The target-row loop: rows without a source stay zero, the others are copied. */
  method PermuteRows(buffer: array<Word>, staged: seq<Tile>, output: nat, rows: nat, inverse: bool, index: nat)
    requires 0 < rows && |staged| == SourceTiles(rows, inverse) && (inverse ==> index < rows)
    requires |staged| * 512 <= output && output + 512 == buffer.Length && Holds(buffer[..], staged)
    requires forall r :: 0 <= r < 32 ==> TileRow(buffer[..], output, r) == ZERO_ROW
    modifies buffer
    ensures forall row :: 0 <= row < 32 ==>
              RowIs(buffer[..], output, staged, RowSource(rows, inverse, index, row), row)
  {
    for row := 0 to 32
      invariant Holds(buffer[..], staged)
      invariant forall r :: 0 <= r < row ==> RowIs(buffer[..], output, staged, RowSource(rows, inverse, index, r), r)
      invariant forall r :: row <= r < 32 ==> TileRow(buffer[..], output, r) == ZERO_ROW
    {
      RowSourceStaged(rows, inverse, index, row);
      FillRow(buffer, staged, output, RowSource(rows, inverse, index, row), row);
    }
  }

  /** attention_fold_dma.cpp for one task, in a staging buffer of (max(4, rows) + 1) * 2048 bytes. */
  method FoldTask(source: seq<Tile>, rows: nat, inverse: bool, offset: nat, task: nat) returns (tile: Tile)
    requires 1 <= rows <= 8 && (inverse ==> offset == 0 && task / 8 < rows)
    requires (offset + SourceTiles(rows, inverse)) * 8 <= |source|
    ensures TaskOutput(source, rows, inverse, offset, task, tile)
  {
    var capacity := if rows > 4 then rows else 4;
    var buffer := new Word[(capacity + 1) * 512](_ => 0);
    var output := capacity * 512;
    var staged := StagedTiles(source, offset, SourceTiles(rows, inverse), task % 8);
    StageTiles(buffer, staged);
    ZeroTile(buffer, staged, output);
    PermuteRows(buffer, staged, output, rows, inverse, task / 8);
    tile := buffer[output..output + 512];
    forall row | 0 <= row < 32 ensures RowIs(tile, 0, staged, RowSource(rows, inverse, task / 8, row), row) {
      RowOfSlice(buffer[..], output, row);
      assert buffer[..][output..output + 512] == tile;
    }
  }

  lemma RowOfSlice(words: seq<Word>, base: nat, row: nat)
    requires row < 32 && base + 512 <= |words|
    ensures TileRow(words[base..base + 512], 0, row) == TileRow(words, base, row)
  {
    SliceOfSlice(words, base, 512, RowStart(row), RowStart(row) + 8);
    SliceOfSlice(words, base, 512, RowStart(row) + 128, RowStart(row) + 136);
  }

  /** The output tile is zeroed before any row is copied into it. */
  method ZeroTile(buffer: array<Word>, staged: seq<Tile>, output: nat)
    requires |staged| * 512 <= output && output + 512 == buffer.Length && Holds(buffer[..], staged)
    modifies buffer
    ensures Holds(buffer[..], staged)
    ensures forall r :: 0 <= r < 32 ==> TileRow(buffer[..], output, r) == ZERO_ROW
  {
    ghost var before := buffer[..];
    for word := 0 to 512
      invariant buffer[..output] == before[..output]
      invariant forall i :: output <= i < output + word ==> buffer[i] == 0
    {
      buffer[output + word] := 0;
    }
    HoldsAfter(before, buffer[..], staged, output);
    forall r | 0 <= r < 32 ensures TileRow(buffer[..], output, r) == ZERO_ROW {
      ZeroRows(buffer[..], output, r);
    }
  }

  /** What one task writes: the selected rows of its staged tiles, zeros elsewhere. */
  predicate TaskOutput(source: seq<Tile>, rows: nat, inverse: bool, offset: nat, task: nat, tile: Tile)
    requires 0 < rows && (offset + SourceTiles(rows, inverse)) * 8 <= |source|
  {
    forall row :: 0 <= row < 32 ==>
      RowIs(tile, 0, StagedTiles(source, offset, SourceTiles(rows, inverse), task % 8),
            RowSource(rows, inverse, task / 8, row), row)
  }

  /** Output tiles of a layout call: one per task. */
  function TaskCount(rows: nat, inverse: bool): nat {
    if inverse then rows * 8 else ((rows * 12 + 31) / 32) * 8
  }

  /** Every task writes the page with its own number. */
  method RunTasks(source: seq<Tile>, rows: nat, inverse: bool, offset: nat) returns (pages: seq<Tile>)
    requires 1 <= rows <= 8 && (inverse ==> offset == 0)
    requires (offset + SourceTiles(rows, inverse)) * 8 <= |source|
    ensures Layout(source, rows, inverse, offset, pages)
  {
    pages := [];
    for task := 0 to TaskCount(rows, inverse)
      invariant |pages| == task
      invariant forall t :: 0 <= t < task ==> TaskOutput(source, rows, inverse, offset, t, pages[t])
    {
      var tile := FoldTask(source, rows, inverse, offset, task);
      pages := pages + [tile];
    }
  }

  /** The tensors of the two directions: a query of `tokens` tokens, or one folded group of `heads` heads. */
  datatype Shape = Query(tokens: nat) | Folded(heads: nat)

  /** Tiles of a tensor, eight across: one row of tiles per token, or one per 32 folded heads. */
  function TilesOf(shape: Shape): nat {
    match shape
    case Query(tokens) => tokens * 8
    case Folded(heads) => ((heads + 31) / 32) * 8
  }

  /** The geometry `device_layout_dma` admits. */
  predicate AdmittedLayout(shape: Shape, rows: int, inverse: bool, offset: int) {
    && 1 <= rows <= 8 && offset >= 0
    && (if inverse then shape == Folded(rows * 12) && offset == 0 else shape.Query? && offset + rows <= shape.tokens)
  }

  /** `device_layout_dma`. */
  method DeviceLayoutDma(source: seq<Tile>, shape: Shape, rows: int, inverse: bool, offset: int)
    returns (r: Result<seq<Tile>>)
    requires |source| == TilesOf(shape)
    ensures r.Ok? <==> AdmittedLayout(shape, rows, inverse, offset)
    ensures r.Ok? ==>
              (offset + SourceTiles(rows, inverse)) * 8 <= |source| &&
              Layout(source, rows, inverse, offset, r.value)
  {
    if !(1 <= rows <= 8) || offset < 0 {
      return Raised;
    }
    if (inverse && (shape != Folded(rows * 12) || offset != 0)) ||
       (!inverse && (!shape.Query? || offset + rows > shape.tokens))
    {
      return Raised;
    }
    var pages := RunTasks(source, rows, inverse, offset);
    r := Ok(pages);
  }

  predicate Layout(source: seq<Tile>, rows: nat, inverse: bool, offset: nat, pages: seq<Tile>)
    requires 0 < rows && (offset + SourceTiles(rows, inverse)) * 8 <= |source|
  {
    |pages| == TaskCount(rows, inverse) &&
    forall t :: 0 <= t < |pages| ==> TaskOutput(source, rows, inverse, offset, t, pages[t])
  }

  // ----- Meaning on the tensors

  /** 32 consecutive values of head `head` of token `token`: a tile holds the twelve heads of one token. */
  function QueryPart(pages: seq<Tile>, token: nat, head: nat, column: nat): seq<Word>
    requires head < 32 && column < 8 && token * 8 + 8 <= |pages|
  {
    TileRow(pages[token * 8 + column], 0, head)
  }

  /** 32 consecutive values of row `row` of a folded tensor: a tile holds 32 rows. */
  function FoldedPart(pages: seq<Tile>, row: nat, column: nat): seq<Word>
    requires column < 8 && (row / 32) * 8 + 8 <= |pages|
  {
    TileRow(pages[(row / 32) * 8 + column], 0, row % 32)
  }

  /** Row `row` of the page of task tile `index` and column `column`, in terms of the source pages. */
  lemma RowOfTask(source: seq<Tile>, rows: nat, inverse: bool, offset: nat, pages: seq<Tile>, index: nat, column: nat,
                  row: nat)
    requires 0 < rows && (offset + SourceTiles(rows, inverse)) * 8 <= |source| && row < 32 && column < 8
    requires Layout(source, rows, inverse, offset, pages) && index * 8 + 8 <= |pages|
    ensures match RowSource(rows, inverse, index, row)
            case None => TileRow(pages[index * 8 + column], 0, row) == ZERO_ROW
            case Some(p) => p.tile < SourceTiles(rows, inverse) && p.row < 32
                            && TileRow(pages[index * 8 + column], 0, row) ==
                               TileRow(source[(p.tile + offset) * 8 + column], 0, p.row)
  {
    var task := index * 8 + column;
    assert task / 8 == index && task % 8 == column;
    assert TaskOutput(source, rows, inverse, offset, task, pages[task]);
    assert RowIs(pages[task], 0, StagedTiles(source, offset, SourceTiles(rows, inverse), column),
                 RowSource(rows, inverse, index, row), row);
  }

  /** The kernel's forward row arithmetic is `source_row`. */
  lemma ForwardSource(rows: nat, row: nat)
    requires 0 < rows
    ensures var from := SourceRow(rows, row, false);
      RowSource(rows, false, row / 32, row % 32) ==
      if row < rows * 12 then Some(Place(from / 12, from % 12)) else None
    ensures row < rows * 12 ==> SourceRow(rows, row, false) / 12 < rows
  {
    if row < rows * 12 {
      FoldedDigits(rows, row);
      var kv, rest := Quotient(row, rows * 6), Remainder(row, rows * 6);
      PlaceDigits(rest / 6, kv, rest % 6);
    }
  }

  lemma PlaceDigits(token: nat, kv: nat, h: nat)
    requires kv < 2 && h < 6
    ensures (token * 12 + kv * 6 + h) / 12 == token && (token * 12 + kv * 6 + h) % 12 == kv * 6 + h
  {
  }

  /** So is the inverse one. */
  lemma InverseSource(rows: nat, token: nat, head: nat)
    requires 0 < rows && token < rows
    ensures var from := SourceRow(rows, token * 12 + head, true);
      head < 12 ==> RowSource(rows, true, token, head) == Some(Place(from / 32, from % 32))
    ensures head >= 12 ==> RowSource(rows, true, token, head) == None
  {
    if head < 12 {
      PlaceDigits(token, head / 6, head % 6);
    }
  }

  /** Folding places row `row` as `source_row` says, counted from the offset token; padding rows are zero. */
  lemma ForwardRefines(source: seq<Tile>, rows: nat, offset: nat, pages: seq<Tile>, row: nat, column: nat)
    requires 1 <= rows <= 8 && (offset + rows) * 8 <= |source| && Layout(source, rows, false, offset, pages)
    requires column < 8 && row < ((rows * 12 + 31) / 32) * 32
    ensures (row / 32) * 8 + 8 <= |pages|
    ensures row >= rows * 12 ==> FoldedPart(pages, row, column) == ZERO_ROW
    ensures row < rows * 12 ==>
              var from := SourceRow(rows, row, false);
              from / 12 < rows &&
              FoldedPart(pages, row, column) == QueryPart(source, offset + from / 12, from % 12, column)
  {
    ForwardSource(rows, row);
    RowOfTask(source, rows, false, offset, pages, row / 32, column, row % 32);
  }

  /** Unfolding places head `head` of token `token` as the inverse `source_row` says; rows 12 to 31 are zero. */
  lemma InverseRefines(source: seq<Tile>, rows: nat, pages: seq<Tile>, token: nat, head: nat, column: nat)
    requires 1 <= rows <= 8 && SourceTiles(rows, true) * 8 <= |source| && Layout(source, rows, true, 0, pages)
    requires column < 8 && token < rows && head < 32
    ensures token * 8 + 8 <= |pages|
    ensures head >= 12 ==> QueryPart(pages, token, head, column) == ZERO_ROW
    ensures head < 12 ==>
              var from := SourceRow(rows, token * 12 + head, true);
              (from / 32) * 8 + 8 <= |source| &&
                  QueryPart(pages, token, head, column) == FoldedPart(source, from, column)
  {
    InverseSource(rows, token, head);
    RowOfTask(source, rows, true, 0, pages, token, column, head);
  }

  lemma SourceRoundTrip(rows: nat, token: nat, head: nat, from: nat, back: nat)
    requires token < rows && head < 12 && from == SourceRow(rows, token * 12 + head, true)
    requires back == SourceRow(rows, from, false)
    ensures from < rows * 12 && back / 12 == token && back % 12 == head
  {
    var kv, h := head / 6, head % 6;
    var index, folded := token * 12 + kv * 6 + h, kv * (rows * 6) + token * 6 + h;
    assert kv * 6 + h == head;
    SourceRowDigits(rows, token, kv, h);
    ThereAndBack(rows, index, folded, from, back);
    HeadBound(rows, token, kv, h);
    PlaceDigits(token, kv, h);
  }

  lemma ThereAndBack(rows: nat, index: nat, folded: nat, from: nat, back: nat)
    requires rows > 0 && SourceRow(rows, index, true) == folded && SourceRow(rows, folded, false) == index
    requires from == SourceRow(rows, index, true) && back == SourceRow(rows, from, false)
    ensures from == folded && back == index
  {
  }

  lemma HeadBound(rows: nat, token: nat, kv: nat, h: nat)
    requires token < rows && kv < 2 && h < 6
    ensures kv * (rows * 6) + token * 6 + h < rows * 12
  {
  }

  /** Folding the selected tokens and unfolding again returns their twelve heads, with zero padding rows. */
  lemma RoundTrip(source: seq<Tile>, rows: nat, offset: nat, folded: seq<Tile>, pages: seq<Tile>, token: nat,
                  head: nat, column: nat)
    requires 1 <= rows <= 8 && (offset + rows) * 8 <= |source| && Layout(source, rows, false, offset, folded)
    requires SourceTiles(rows, true) * 8 <= |folded| && Layout(folded, rows, true, 0, pages)
    requires column < 8 && token < rows && head < 32
    ensures token * 8 + 8 <= |pages|
    ensures QueryPart(pages, token, head, column) ==
            if head < 12 then QueryPart(source, offset + token, head, column) else ZERO_ROW
  {
    InverseRefines(folded, rows, pages, token, head, column);
    if head < 12 {
      var from := SourceRow(rows, token * 12 + head, true);
      SourceRoundTrip(rows, token, head, from, SourceRow(rows, from, false));
      ForwardRefines(source, rows, offset, folded, from, column);
    }
  }
}
