/**
 * The two score kernels (scripts/ci/compact_score_io.cpp, compact_score_reduce.cpp): every worker scans
 * its tiles of one score row for a local winner, then one core validates and reduces the records.
 */
module ScoreKernels {
  import opened Arithmetic
  import opened Bits
  import opened Fp32
  import opened ScoreSelection
  import opened TileLayout

  const NO_TOKEN: Word := 0xffff_ffff
  const MAX_TILES: nat := 7760
  const MAX_WORKERS: nat := 110

  /** Worker counts and row widths of at most the full vocabulary: no 32-bit product of the kernels wraps. */
  predicate Geometry(workers: nat, tiles: nat) {
    1 <= workers <= tiles <= MAX_TILES
  }

  /** `worker * tiles / workers` in 32-bit arithmetic. */
  function KernelStart(worker: nat, tiles: nat, workers: nat): Word
    requires workers > 0
  {
    QuotientIsDivision(U32(worker * tiles), workers);
    Quotient(U32(worker * tiles), workers)
  }

  lemma ProductsFit(worker: nat, tiles: nat, workers: nat)
    requires Geometry(workers, tiles) && worker <= workers
    ensures U32(worker * tiles) == worker * tiles
  {
    MulOrder(tiles, worker, MAX_TILES);
  }

  /** The kernels' range starts are the boundaries of host `partitions`, and the scaled ones do not wrap. */
  lemma KernelStartIsBoundary(worker: nat, tiles: nat, workers: nat)
    requires Geometry(workers, tiles) && worker <= workers
    ensures KernelStart(worker, tiles, workers) * 32 == TokenBounds(tiles, workers)[worker] <= tiles * 32
    ensures U32(KernelStart(worker, tiles, workers) * 32) == TokenBounds(tiles, workers)[worker]
  {
    ProductsFit(worker, tiles, workers);
    assert TokenBounds(tiles, workers)[worker] <= TokenBounds(tiles, workers)[workers];
  }

  /** The range test of both kernels, evaluated: worker `worker` owns the tokens of its boundaries. */
  method KernelRange(worker: nat, tiles: nat, workers: nat) returns (first: nat, last: nat)
    requires Geometry(workers, tiles) && worker < workers
    ensures first * 32 == TokenBounds(tiles, workers)[worker] && last * 32 == TokenBounds(tiles, workers)[worker + 1]
    ensures U32(first * 32) == first * 32 && U32(last * 32) == last * 32
    ensures first < last <= tiles
  {
    KernelStartIsBoundary(worker, tiles, workers);
    KernelStartIsBoundary(worker + 1, tiles, workers);
    first, last := KernelStart(worker, tiles, workers), KernelStart(worker + 1, tiles, workers);
  }

  // ----- The local scan as a function of the score row

  /** The registers of the scan loop. */
  datatype Local = Local(key: Word, bits: Word, token: Word, nonfinite: Word)

  function ScanStep(local: Local, bits: Word, token: Word): Local {
    if !Finite(bits) then local.(nonfinite := 1)
    else if local.token == NO_TOKEN || OrderedKey(bits) > local.key
    then Local(OrderedKey(bits), bits, token, local.nonfinite)
    else local
  }

  /** The registers after the tokens in [lo, hi). */
  function Scan(row: seq<Word>, lo: nat, hi: nat): Local
    requires lo <= hi <= |row| <= NO_TOKEN
  {
    if lo == hi then Local(0, 0, NO_TOKEN, 0)
    else ScanStep(Scan(row, lo, hi - 1), row[hi - 1], hi - 1)
  }

  /** The record of a worker that owns the tokens in [lo, hi). */
  function LocalRecord(row: seq<Word>, lo: nat, hi: nat): Record
    requires lo <= hi <= |row| <= NO_TOKEN
  {
    var local := Scan(row, lo, hi);
    [local.bits, local.token, local.nonfinite, 0, 0, 0, 0, 0]
  }

  /** What the scan finds: whether anything is nonfinite, and the first greatest finite score. */
  lemma {:induction false} ScanFinds(row: seq<Word>, lo: nat, hi: nat)
    requires lo <= hi <= |row| <= NO_TOKEN
    ensures var local := Scan(row, lo, hi);
      && (local.nonfinite == 0 <==> FiniteRange(row, lo, hi))
      && (local.token == NO_TOKEN ==> forall i :: lo <= i < hi ==> !Finite(row[i]))
      && (local.token != NO_TOKEN ==>
            && lo <= local.token < hi && Finite(local.bits)
            && local.bits == row[local.token] && local.key == OrderedKey(local.bits)
            && (forall i :: lo <= i < hi && Finite(row[i]) ==> OrderedKey(row[i]) <= local.key)
            && (forall i :: lo <= i < local.token && Finite(row[i]) ==> OrderedKey(row[i]) < local.key))
  {
    if lo < hi {
      ScanFinds(row, lo, hi - 1);
    }
  }

  // ----- The io kernel

  type Page = page: seq<Word> | |page| == 1024 witness seq(1024, _ => 0)

  /** Token `t` of row `step`: the tiled base score plus the bias held in row 0 of its tile. */
  function ScoreOf(base: seq<Page>, bias: seq<Page>, add: (Word, Word) -> Word, step: nat, t: nat): Word
    requires |base| == |bias| && step < 32 && t < |base| * 32
  {
    add(base[t / 32][FaceIndex(step, t % 32)], bias[t / 32][FaceIndex(0, t % 32)])
  }

  /** The logical score row; `add` is the device addition. */
  function ScoreRow(base: seq<Page>, bias: seq<Page>, add: (Word, Word) -> Word, step: nat): (row: seq<Word>)
    requires |base| == |bias| && step < 32
    ensures |row| == |base| * 32
  {
    seq(|base| * 32, (t: nat) requires t < |base| * 32 => ScoreOf(base, bias, add, step, t))
  }

  /** An asynchronous read after its barrier: `bytes` bytes of a page land in local memory. */
  method NocRead(page: Page, byteOffset: nat, bytes: nat, target: array<Word>, targetByteOffset: nat)
    requires byteOffset % 4 == 0 && bytes % 4 == 0 && targetByteOffset % 4 == 0
    requires byteOffset + bytes <= 4096 && targetByteOffset + bytes <= 4 * target.Length
    modifies target
    ensures forall i :: targetByteOffset / 4 <= i < targetByteOffset / 4 + bytes / 4 ==>
              target[i] == page[byteOffset / 4 + (i - targetByteOffset / 4)]
    ensures forall i :: 0 <= i < target.Length && !(targetByteOffset / 4 <= i < targetByteOffset / 4 + bytes / 4) ==>
              target[i] == old(target[i])
  {
    var source, destination := byteOffset / 4, targetByteOffset / 4;
    for i := 0 to bytes / 4
      invariant forall j :: destination <= j < destination + i ==> target[j] == page[source + (j - destination)]
      invariant forall j :: 0 <= j < target.Length && !(destination <= j < destination + i) ==>
                  target[j] == old(target[j])
    {
      target[destination + i] := page[source + i];
    }
  }

  /** The word of a score buffer that holds lane `lane` of its first row. */
  function LaneIndex(lane: nat): (i: nat)
    requires lane < 32
    ensures i < 1024
  {
    (lane / 16) * 256 + lane % 16
  }

  lemma LaneFaces(row: nat, lane: nat)
    requires row < 32 && lane < 32
    ensures lane < 16 ==> LaneIndex(lane) == lane
    ensures lane >= 16 ==> LaneIndex(lane) == 256 + (lane - 16)
    ensures FaceIndex(row, lane) == (row / 16) * 512 + (row % 16) * 16 + LaneIndex(lane)
  {
  }

  /** The two 64-byte reads bring one tile row into the first row of the local tile. */
  method ReadRow(page: Page, row: nat, buffer: array<Word>)
    requires row < 32 && buffer.Length == 1024
    modifies buffer
    ensures forall lane :: 0 <= lane < 32 ==> buffer[LaneIndex(lane)] == page[FaceIndex(row, lane)]
  {
    var offset := ((row / 16) * 512 + (row % 16) * 16) * 4;
    NocRead(page, offset, 64, buffer, 0);
    NocRead(page, offset + 1024, 64, buffer, 1024);
    forall lane | 0 <= lane < 32
      ensures buffer[LaneIndex(lane)] == page[FaceIndex(row, lane)]
    {
      LaneFaces(row, lane);
    }
  }

  /** The compute kernel's elementwise device addition over a whole tile. */
  method AddTiles(left: array<Word>, right: array<Word>, add: (Word, Word) -> Word, scores: array<Word>)
    requires left.Length == right.Length == scores.Length == 1024 && left != scores && right != scores
    modifies scores
    ensures forall i :: 0 <= i < 1024 ==> scores[i] == add(left[i], right[i])
  {
    for i := 0 to 1024
      invariant forall j :: 0 <= j < i ==> scores[j] == add(left[j], right[j])
    {
      scores[i] := add(left[i], right[i]);
    }
  }

  /** The 32 entries of `row` that tile `task` scores. */
  predicate TileScores(row: seq<Word>, base: Page, bias: Page, add: (Word, Word) -> Word, step: nat, task: nat)
    requires step < 32 && task * 32 + 32 <= |row|
  {
    forall lane :: 0 <= lane < 32 ==>
      row[task * 32 + lane] == add(base[FaceIndex(step, lane)], bias[FaceIndex(0, lane)])
  }

  lemma ScoreRowTiles(base: seq<Page>, bias: seq<Page>, add: (Word, Word) -> Word, step: nat, task: nat)
    requires |base| == |bias| && task < |base| && step < 32
    ensures TileScores(ScoreRow(base, bias, add, step), base[task], bias[task], add, step, task)
  {
    var row := ScoreRow(base, bias, add, step);
    forall lane | 0 <= lane < 32
      ensures row[task * 32 + lane] == add(base[task][FaceIndex(step, lane)], bias[task][FaceIndex(0, lane)])
    {
      ScoreRowAt(base, bias, add, step, task, lane);
    }
  }

  lemma ScoreRowAt(base: seq<Page>, bias: seq<Page>, add: (Word, Word) -> Word, step: nat, task: nat, lane: nat)
    requires |base| == |bias| && task < |base| && step < 32 && lane < 32
    ensures ScoreRow(base, bias, add, step)[task * 32 + lane] ==
            add(base[task][FaceIndex(step, lane)], bias[task][FaceIndex(0, lane)])
  {
    var t := task * 32 + lane;
    assert t / 32 == task && t % 32 == lane;
    assert ScoreRow(base, bias, add, step)[t] == ScoreOf(base, bias, add, step, t);
  }

  /** One tile of scores: both reads, then the addition. */
  method ScoreTile(base: Page, bias: Page, add: (Word, Word) -> Word, step: nat, task: nat, ghost row: seq<Word>,
                   baseWords: array<Word>, biasWords: array<Word>, scores: array<Word>)
    requires step < 32 && task * 32 + 32 <= |row| && TileScores(row, base, bias, add, step, task)
    requires baseWords.Length == biasWords.Length == scores.Length == 1024
    requires baseWords != biasWords && baseWords != scores && biasWords != scores
    modifies baseWords, biasWords, scores
    ensures forall lane :: 0 <= lane < 32 ==> scores[LaneIndex(lane)] == row[task * 32 + lane]
  {
    ReadRow(base, step, baseWords);
    ReadRow(bias, 0, biasWords);
    AddTiles(baseWords, biasWords, add, scores);
  }

  /** The lane loop over one tile of scores. */
  method ScanTile(scores: array<Word>, task: nat, local: Local, ghost row: seq<Word>, ghost lo: nat)
    returns (next: Local)
    requires scores.Length == 1024 && lo <= task * 32 && task * 32 + 32 <= |row| <= NO_TOKEN
    requires forall lane :: 0 <= lane < 32 ==> scores[LaneIndex(lane)] == row[task * 32 + lane]
    requires local == Scan(row, lo, task * 32)
    ensures next == Scan(row, lo, task * 32 + 32)
  {
    next := local;
    for lane := 0 to 32
      invariant next == Scan(row, lo, task * 32 + lane)
    {
      var bits := scores[LaneIndex(lane)];
      if !Finite(bits) {
        next := next.(nonfinite := 1);
        continue;
      }
      var key := OrderedKey(bits);
      if next.token == NO_TOKEN || key > next.key {
        next := next.(key := key, bits := bits, token := task * 32 + lane);
      }
    }
  }

  /** The task loop of one worker over the tiles in [first, last). */
  method ScanTiles(base: seq<Page>, bias: seq<Page>, add: (Word, Word) -> Word, step: nat, first: nat, last: nat,
                   ghost row: seq<Word>, baseWords: array<Word>, biasWords: array<Word>, scores: array<Word>)
    returns (local: Local)
    requires |base| == |bias| && first <= last <= |base| && step < 32 && |row| == |base| * 32 <= NO_TOKEN
    requires forall task :: 0 <= task < |base| ==> TileScores(row, base[task], bias[task], add, step, task)
    requires baseWords.Length == biasWords.Length == scores.Length == 1024
    requires baseWords != biasWords && baseWords != scores && biasWords != scores
    modifies baseWords, biasWords, scores
    ensures local == Scan(row, first * 32, last * 32)
  {
    local := Local(0, 0, NO_TOKEN, 0);
    for task := first to last
      invariant local == Scan(row, first * 32, task * 32)
    {
      ScoreTile(base[task], bias[task], add, step, task, row, baseWords, biasWords, scores);
      local := ScanTile(scores, task, local, row, first * 32);
    }
  }

  /** compact_score_io.cpp for one worker: its record is the scan of its slice of the score row. */
  method IoKernel(base: seq<Page>, bias: seq<Page>, add: (Word, Word) -> Word,
                  worker: nat, workers: nat, tiles: nat, step: nat) returns (record: Record)
    requires Geometry(workers, tiles) && |base| == |bias| == tiles && worker < workers && step < 32
    ensures record == WorkerRecord(ScoreRow(base, bias, add, step), TokenBounds(tiles, workers), worker)
  {
    var baseWords := new Word[1024](_ => 0);
    var biasWords := new Word[1024](_ => 0);
    var scores := new Word[1024](_ => 0);
    var first, last := KernelRange(worker, tiles, workers);
    forall task | 0 <= task < tiles
      ensures TileScores(ScoreRow(base, bias, add, step), base[task], bias[task], add, step, task)
    {
      ScoreRowTiles(base, bias, add, step, task);
    }
    var local := ScanTiles(base, bias, add, step, first, last, ScoreRow(base, bias, add, step),
                           baseWords, biasWords, scores);
    record := WriteRecord(baseWords, local);
  }

  /** The record is assembled in the first words of the drained base buffer. */
  method WriteRecord(words: array<Word>, local: Local) returns (record: Record)
    requires words.Length == 1024
    modifies words
    ensures record == [local.bits, local.token, local.nonfinite, 0, 0, 0, 0, 0]
  {
    words[0], words[1], words[2] := local.bits, local.token, local.nonfinite;
    for word := 3 to 8
      invariant words[..word] == [local.bits, local.token, local.nonfinite, 0, 0, 0, 0, 0][..word]
    {
      words[word] := 0;
    }
    record := words[..8];
  }

  // ----- The reduction as a function of the records

  datatype Best = Best(key: Word, token: Word, bits: Word, invalid: bool)

  const NOTHING_YET: Best := Best(0, NO_TOKEN, 0, false)

  /** The kernel's first check of a record for tokens in [lo, hi). */
  predicate Admitted(record: Record, lo: nat, hi: nat) {
    record[2] == 0 && Finite(record[0]) && lo <= record[1] < hi
  }

  predicate ReservedZero(record: Record) {
    forall word :: 3 <= word < 8 ==> record[word] == 0
  }

  function ReduceStep(best: Best, record: Record, lo: nat, hi: nat): Best {
    if !Admitted(record, lo, hi) then best.(invalid := true)
    else
      var invalid := best.invalid || !ReservedZero(record);
      var key := OrderedKey(record[0]);
      if best.token == NO_TOKEN || key > best.key || (key == best.key && record[1] < best.token)
      then Best(key, record[1], record[0], invalid)
      else best.(invalid := invalid)
  }

  /** The registers after the first n records. */
  function Reduce(records: seq<Record>, bounds: seq<nat>, n: nat): Best
    requires n <= |records| && n < |bounds|
  {
    if n == 0 then NOTHING_YET
    else ReduceStep(Reduce(records, bounds, n - 1), records[n - 1], bounds[n - 1], bounds[n])
  }

  /** Word 0 reports the token, word 3 is the one fed back: it is 0 when anything is invalid. */
  function ResultRecord(best: Best): Record {
    [if best.invalid then NO_TOKEN else best.token, if best.invalid then 1 else 0, best.bits,
     if best.invalid then 0 else best.token, 0, 0, 0, 0]
  }

  function ReducedRecord(records: seq<Record>, bounds: seq<nat>): Record
    requires |records| < |bounds|
  {
    ResultRecord(Reduce(records, bounds, |records|))
  }

  // ----- The reduce kernel

  /** Where worker `w`'s record starts in the scratch buffer, in words: one record every 64 bytes. */
  function Slot(w: nat): nat { w * 16 }

  /** compact_score_reduce.cpp over its 8192-byte scratch buffer. */
  method ReduceKernel(input: seq<Record>, tiles: nat) returns (result: Record)
    requires Geometry(|input|, tiles) && |input| <= MAX_WORKERS
    ensures result == ReducedRecord(input, TokenBounds(tiles, |input|))
  {
    var workers := |input|;
    var scratch := new Word[2048](_ => 0);
    LoadRecords(scratch, input);
    var best := ReduceLoop(scratch, input, tiles, workers);
    StoreRecord(scratch, workers, ResultRecord(best));
    result := scratch[Slot(workers)..Slot(workers) + 8];
  }

  /** The record loop of the reduction kernel. */
  method ReduceLoop(scratch: array<Word>, ghost input: seq<Record>, tiles: nat, workers: nat) returns (best: Best)
    requires Geometry(workers, tiles) && workers == |input| && Slot(workers) <= scratch.Length
    requires forall w :: 0 <= w < workers ==> scratch[Slot(w)..Slot(w) + 8] == input[w]
    ensures best == Reduce(input, TokenBounds(tiles, workers), workers)
  {
    best := NOTHING_YET;
    for worker := 0 to workers
      invariant best == Reduce(input, TokenBounds(tiles, workers), worker)
    {
      var first, last := KernelRange(worker, tiles, workers);
      best := ReduceRecord(best, scratch[Slot(worker)..Slot(worker) + 8], U32(first * 32), U32(last * 32));
    }
  }

  method LoadRecords(scratch: array<Word>, input: seq<Record>)
    requires Slot(|input|) <= scratch.Length
    modifies scratch
    ensures forall w :: 0 <= w < |input| ==> scratch[Slot(w)..Slot(w) + 8] == input[w]
  {
    for worker := 0 to |input|
      invariant forall w :: 0 <= w < worker ==> scratch[Slot(w)..Slot(w) + 8] == input[w]
    {
      StoreRecord(scratch, worker, input[worker]);
    }
  }

  /** Eight words go to their slot; the other slots keep theirs. */
  method StoreRecord(scratch: array<Word>, w: nat, record: Record)
    requires Slot(w) + 8 <= scratch.Length
    modifies scratch
    ensures scratch[Slot(w)..Slot(w) + 8] == record
    ensures forall v :: 0 <= v < w ==> scratch[Slot(v)..Slot(v) + 8] == old(scratch[Slot(v)..Slot(v) + 8])
  {
    for i := 0 to 8
      invariant scratch[Slot(w)..Slot(w) + i] == record[..i]
      invariant forall j :: 0 <= j < Slot(w) ==> scratch[j] == old(scratch[j])
    {
      scratch[Slot(w) + i] := record[i];
    }
    forall v | 0 <= v < w
      ensures scratch[Slot(v)..Slot(v) + 8] == old(scratch[Slot(v)..Slot(v) + 8])
    {
      SlotKept(old(scratch[..]), scratch[..], v, w);
      assert scratch[Slot(v)..Slot(v) + 8] == scratch[..][Slot(v)..Slot(v) + 8];
      assert old(scratch[Slot(v)..Slot(v) + 8]) == old(scratch[..])[Slot(v)..Slot(v) + 8];
    }
  }

  lemma SlotKept(before: seq<Word>, after: seq<Word>, v: nat, w: nat)
    requires v < w && Slot(w) <= |before| == |after| && forall j :: 0 <= j < Slot(w) ==> after[j] == before[j]
    ensures after[Slot(v)..Slot(v) + 8] == before[Slot(v)..Slot(v) + 8]
  {
  }

  /** One iteration of the reduction loop. */
  method ReduceRecord(best: Best, record: Record, lo: nat, hi: nat) returns (next: Best)
    ensures next == ReduceStep(best, record, lo, hi)
  {
    var bits, token := record[0], record[1];
    if record[2] != 0 || !Finite(bits) || token < lo || token >= hi {
      return best.(invalid := true);
    }
    var invalid := best.invalid;
    for word := 3 to 8
      invariant invalid == (best.invalid || exists i :: 3 <= i < word && record[i] != 0)
    {
      invalid := invalid || record[word] != 0;
    }
    var key := OrderedKey(bits);
    if best.token == NO_TOKEN || key > best.key || (key == best.key && token < best.token) {
      next := Best(key, token, bits, invalid);
    } else {
      next := best.(invalid := invalid);
    }
  }

  // ----- The kernel agrees with the host on arbitrary records

  lemma AdmissionMatchesHost(record: Record, lo: nat, hi: nat)
    ensures ValidRecord(record, lo, hi) <==> Admitted(record, lo, hi) && ReservedZero(record)
  {
    if Admitted(record, lo, hi) && ReservedZero(record) {
      assert forall i :: 2 <= i < 8 ==> record[i] == 0;
    }
  }

  lemma {:induction false} ReduceInvalid(records: seq<Record>, bounds: seq<nat>, n: nat)
    requires n <= |records| && n < |bounds|
    ensures Reduce(records, bounds, n).invalid <==>
            exists w :: 0 <= w < n && !ValidRecord(records[w], bounds[w], bounds[w + 1])
  {
    if n > 0 {
      ReduceInvalid(records, bounds, n - 1);
      AdmissionMatchesHost(records[n - 1], bounds[n - 1], bounds[n]);
      if !ValidRecord(records[n - 1], bounds[n - 1], bounds[n - 1 + 1]) {
        assert Reduce(records, bounds, n).invalid;
      }
    }
  }

  /** On an acceptable record the step keeps the leader if it beats the record, else takes the record. */
  lemma StepKeepsLeader(best: Best, record: Record, lo: nat, hi: nat)
    requires ValidRecord(record, lo, hi) && hi <= NO_TOKEN
    ensures var next := ReduceStep(best, record, lo, hi);
      && next.token != NO_TOKEN
      && (if best.token != NO_TOKEN && Beats(Winner(best.key, best.token), RecordWinner(record))
          then (next.key, next.token, next.bits) == (best.key, best.token, best.bits)
          else (next.key, next.token, next.bits) == (OrderedKey(record[0]), record[1], record[0]))
  {
    AdmissionMatchesHost(record, lo, hi);
  }

  /** The registers describe record b, which beats the first n. */
  predicate Leads(best: Best, records: seq<Record>, winners: seq<Winner>, n: nat, b: nat) {
    && b < n <= |records| == |winners|
    && best.token != NO_TOKEN && best.token == records[b][1] && best.bits == records[b][0]
    && Winner(best.key, best.token) == winners[b]
    && forall w :: 0 <= w < n ==> Beats(winners[b], winners[w])
  }

  predicate Below(bounds: seq<nat>, limit: nat) {
    forall i :: 0 <= i < |bounds| ==> bounds[i] <= limit
  }

  lemma LeaderExtends(best: Best, next: Best, records: seq<Record>, winners: seq<Winner>, n: nat, a: nat, b: nat)
    requires 1 < n <= |records| && Leads(best, records, winners, n - 1, a)
    requires b == if Beats(winners[a], winners[n - 1]) then a else n - 1
    requires next.token != NO_TOKEN && next.token == records[b][1] && next.bits == records[b][0]
    requires Winner(next.key, next.token) == winners[b]
    ensures Leads(next, records, winners, n, b)
  {
    forall w | 0 <= w < n ensures Beats(winners[b], winners[w]) {
      assert w < n - 1 ==> Beats(winners[a], winners[w]);
    }
  }

  lemma {:induction false} ReduceWinner(records: seq<Record>, bounds: seq<nat>, n: nat) returns (b: nat)
    requires ValidRecords(records, bounds) && 0 < n <= |records| && Below(bounds, NO_TOKEN)
    ensures Leads(Reduce(records, bounds, n), records, RecordWinners(records, bounds), n, b)
  {
    var winners := RecordWinners(records, bounds);
    var best, record := Reduce(records, bounds, n - 1), records[n - 1];
    assert ValidRecord(record, bounds[n - 1], bounds[n - 1 + 1]);
    StepKeepsLeader(best, record, bounds[n - 1], bounds[n]);
    if n == 1 {
      b := 0;
    } else {
      var a := ReduceWinner(records, bounds, n - 1);
      b := if Beats(winners[a], winners[n - 1]) then a else n - 1;
      LeaderExtends(best, Reduce(records, bounds, n), records, winners, n, a, b);
    }
  }

  /**
   * On arbitrary records the kernel reports invalid exactly when host `reduce_records` raises, and otherwise
   * the same token; an invalid result reports no token and feeds back token 0.
   */
  lemma ReduceMatchesHost(records: seq<Record>, bounds: seq<nat>)
    requires 0 < |records| == |bounds| - 1 && Below(bounds, NO_TOKEN)
    ensures var result := ReducedRecord(records, bounds);
      && (result[1] == 0 <==> ValidRecords(records, bounds))
      && (ValidRecords(records, bounds) ==>
            result[3] == result[0] &&
            BestOf(RecordWinners(records, bounds), Winner(OrderedKey(result[2]), result[0])))
      && (!ValidRecords(records, bounds) ==> result[0] == NO_TOKEN && result[1] == 1 && result[3] == 0)
  {
    ReduceInvalid(records, bounds, |records|);
    ResultFlags(Reduce(records, bounds, |records|));
    if ValidRecords(records, bounds) {
      var b := ReduceWinner(records, bounds, |records|);
      LeaderIsBest(Reduce(records, bounds, |records|), records, RecordWinners(records, bounds), b);
    }
  }

  /** What the result words say of the registers. */
  lemma ResultFlags(best: Best)
    ensures var result := ResultRecord(best);
      && (result[1] == 0 <==> !best.invalid) && result[2] == best.bits
      && (!best.invalid ==> result[0] == best.token == result[3])
      && (best.invalid ==> result[0] == NO_TOKEN && result[1] == 1 && result[3] == 0)
  {
  }

  lemma LeaderIsBest(best: Best, records: seq<Record>, winners: seq<Winner>, b: nat)
    requires 0 < |records| == |winners| && Leads(best, records, winners, |records|, b)
    requires winners[b].key == OrderedKey(records[b][0])
    ensures BestOf(winners, Winner(OrderedKey(best.bits), best.token))
  {
    assert winners[b] in winners;
  }

  // ----- The two kernels together

  /** The record worker `w` writes for one score row. */
  function WorkerRecord(row: seq<Word>, bounds: seq<nat>, w: nat): Record
    requires IsPartition(bounds, |row|) && |row| <= NO_TOKEN && w + 1 < |bounds|
  {
    assert bounds[w] < bounds[w + 1] <= bounds[|bounds| - 1];
    LocalRecord(row, bounds[w], bounds[w + 1])
  }

  /** The records all workers write for one score row. */
  function WorkerRecords(row: seq<Word>, bounds: seq<nat>): (records: seq<Record>)
    requires IsPartition(bounds, |row|) && |row| <= NO_TOKEN
    ensures |records| == |bounds| - 1
  {
    seq(|bounds| - 1, (w: nat) requires w < |bounds| - 1 => WorkerRecord(row, bounds, w))
  }

  /** The record the reduce kernel writes for one score row. */
  function SelectedRecord(row: seq<Word>, bounds: seq<nat>): Record
    requires IsPartition(bounds, |row|) && |row| <= NO_TOKEN
  {
    ReducedRecord(WorkerRecords(row, bounds), bounds)
  }

  lemma LocalRecordValid(row: seq<Word>, lo: nat, hi: nat)
    requires lo < hi <= |row| <= NO_TOKEN
    ensures var record := LocalRecord(row, lo, hi);
      && (ValidRecord(record, lo, hi) <==> FiniteRange(row, lo, hi))
      && (ValidRecord(record, lo, hi) ==>
            RangeWinner(row, lo, hi, RecordWinner(record)) && record[0] == row[record[1]])
  {
    ScanFinds(row, lo, hi);
    var record := LocalRecord(row, lo, hi);
    if FiniteRange(row, lo, hi) {
      assert Finite(row[lo]);
      assert forall i :: 2 <= i < 8 ==> record[i] == 0;
    } else {
      assert record[2] != 0;
    }
  }

  lemma WorkerRange(bounds: seq<nat>, w: nat)
    requires IsPartition(bounds, if |bounds| > 0 then bounds[|bounds| - 1] else 0) && w + 1 < |bounds|
    ensures bounds[w] < bounds[w + 1] <= bounds[|bounds| - 1]
  {
  }

  lemma RecordsValidIffFinite(row: seq<Word>, bounds: seq<nat>)
    requires IsPartition(bounds, |row|) && |row| <= NO_TOKEN
    ensures ValidRecords(WorkerRecords(row, bounds), bounds) <==> FiniteRow(row)
  {
    var records := WorkerRecords(row, bounds);
    forall w | 0 <= w < |records|
      ensures ValidRecord(records[w], bounds[w], bounds[w + 1]) <==> FiniteRange(row, bounds[w], bounds[w + 1])
    {
      WorkerRange(bounds, w);
      LocalRecordValid(row, bounds[w], bounds[w + 1]);
    }
    if ValidRecords(records, bounds) {
      forall i | 0 <= i < |row| ensures Finite(row[i]) {
        var w := OwnerExists(bounds, i, |bounds| - 1);
        assert FiniteRange(row, bounds[w], bounds[w + 1]);
      }
    }
    if FiniteRow(row) {
      forall w | 0 <= w < |records| ensures ValidRecord(records[w], bounds[w], bounds[w + 1]) {
        WorkerRange(bounds, w);
      }
    }
  }

  lemma WorkerWinners(row: seq<Word>, bounds: seq<nat>)
    requires IsPartition(bounds, |row|) && |row| <= NO_TOKEN && ValidRecords(WorkerRecords(row, bounds), bounds)
    ensures RangeWinners(row, bounds, RecordWinners(WorkerRecords(row, bounds), bounds))
    ensures forall w :: 0 <= w < |bounds| - 1 ==>
              var record := WorkerRecords(row, bounds)[w]; record[1] < |row| && record[0] == row[record[1]]
  {
    var records := WorkerRecords(row, bounds);
    forall w | 0 <= w < |records|
      ensures RangeWinner(row, bounds[w], bounds[w + 1], RecordWinners(records, bounds)[w])
      ensures records[w][1] < |row| && records[w][0] == row[records[w][1]]
    {
      WorkerRange(bounds, w);
      LocalRecordValid(row, bounds[w], bounds[w + 1]);
    }
  }

  /**
   * For every row and every partition of it: on finite scores the selected token is the serial argmax, with
   * its encoding, in both the reported and the fed-back word; one nonfinite score anywhere fails closed.
   */
  lemma KernelsSelectArgmax(row: seq<Word>, bounds: seq<nat>)
    requires IsPartition(bounds, |row|) && |row| <= NO_TOKEN
    ensures Selects(row, SelectedRecord(row, bounds))
  {
    var records := WorkerRecords(row, bounds);
    assert forall i :: 0 <= i < |bounds| ==> bounds[i] <= bounds[|bounds| - 1];
    RecordsValidIffFinite(row, bounds);
    ReduceMatchesHost(records, bounds);
    if FiniteRow(row) {
      var b := ReduceWinner(records, bounds, |records|);
      var winners := RecordWinners(records, bounds);
      WorkerWinners(row, bounds);
      assert BestOf(winners, winners[b]);
      RangesReduce(row, bounds, winners, winners[b]);
    }
  }

  /** What a selected record says about its row. */
  predicate Selects(row: seq<Word>, record: Record) {
    && (FiniteRow(row) ==>
          IsArgmax(row, record[0]) && record == [record[0], 0, row[record[0]], record[0], 0, 0, 0, 0])
    && (!FiniteRow(row) ==> record[0] == NO_TOKEN && record[1] == 1 && record[3] == 0)
  }

  /** The selected record does not depend on how many workers shared the row. */
  lemma WorkerCountIrrelevant(row: seq<Word>, tiles: nat, workers: nat, others: nat)
    requires Geometry(workers, tiles) && Geometry(others, tiles) && |row| == tiles * 32 && FiniteRow(row)
    ensures SelectedRecord(row, TokenBounds(tiles, workers)) == SelectedRecord(row, TokenBounds(tiles, others))
  {
    var left, right := TokenBounds(tiles, workers), TokenBounds(tiles, others);
    KernelsSelectArgmax(row, left);
    KernelsSelectArgmax(row, right);
    ArgmaxUnique(row, SelectedRecord(row, left)[0], SelectedRecord(row, right)[0]);
  }
}
