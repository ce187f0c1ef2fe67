/** Host specification of the winner reduction (scripts/ci/compact_score_selection.py). */
module ScoreSelection {
  import opened Arithmetic
  import opened Bits
  import opened Fp32
  import opened Results

  // ----- Partitions

  /** Boundaries that split [0, items) into nonempty consecutive ranges; worker w owns [bounds[w], bounds[w + 1]). */
  predicate IsPartition(bounds: seq<nat>, items: nat) {
    && |bounds| >= 2
    && bounds[0] == 0 && bounds[|bounds| - 1] == items
    && forall v, w :: 0 <= v < w < |bounds| ==> bounds[v] < bounds[w]
  }

  /** First item of worker `w` when `items` are shared by floor division. */
  function RangeStart(w: nat, items: nat, workers: nat): nat
    requires workers > 0
  {
    Quotient(w * items, workers)
  }

  /** The boundaries of `partitions(items, workers)`: no worker goes idle and the ranges tile the row. */
  function Partitions(items: nat, workers: nat): (bounds: seq<nat>)
    requires 1 <= workers <= items
    ensures |bounds| == workers + 1 && IsPartition(bounds, items)
  {
    PartitionsTile(items, workers);
    seq(workers + 1, (w: nat) => RangeStart(w, items, workers))
  }

  /** With no more workers than items every range is nonempty. */
  lemma RangesGrow(w: nat, items: nat, workers: nat)
    requires 1 <= workers <= items
    ensures RangeStart(w, items, workers) < RangeStart(w + 1, items, workers)
  {
    MulDistributes(w, 1, items);
    QuotientOrder(w * items + workers, (w + 1) * items, workers);
  }

  lemma {:induction false} RangesOrdered(v: nat, w: nat, items: nat, workers: nat)
    requires 1 <= workers <= items && v < w
    ensures RangeStart(v, items, workers) < RangeStart(w, items, workers)
    decreases w - v
  {
    RangesGrow(w - 1, items, workers);
    if v < w - 1 {
      RangesOrdered(v, w - 1, items, workers);
    }
  }

  lemma PartitionsTile(items: nat, workers: nat)
    requires 1 <= workers <= items
    ensures IsPartition(seq(workers + 1, (w: nat) => RangeStart(w, items, workers)), items)
  {
    QuotientExact(items, workers);
    assert workers * items == items * workers;
    var bounds := seq(workers + 1, (w: nat) => RangeStart(w, items, workers));
    forall v, w | 0 <= v < w < |bounds| ensures bounds[v] < bounds[w] {
      RangesOrdered(v, w, items, workers);
    }
  }

  /** Every item has an owner; the boundaries being ordered, it has only one. */
  lemma {:induction false} OwnerExists(bounds: seq<nat>, item: nat, n: nat) returns (w: nat)
    requires 0 < |bounds| && bounds[0] == 0 && n < |bounds| && item < bounds[n]
    ensures w < n && bounds[w] <= item < bounds[w + 1]
  {
    if bounds[n - 1] <= item {
      w := n - 1;
    } else {
      w := OwnerExists(bounds, item, n - 1);
    }
  }

  // ----- The serial argmax

  predicate FiniteRow(row: seq<Word>) {
    forall i :: 0 <= i < |row| ==> Finite(row[i])
  }

  predicate FiniteRange(row: seq<Word>, lo: nat, hi: nat) {
    hi <= |row| && forall i :: lo <= i < hi ==> Finite(row[i])
  }

  /** `token` is the first index of a greatest key among the row's entries in [lo, hi). */
  predicate FirstMaximum(row: seq<Word>, lo: nat, hi: nat, token: nat) {
    && lo <= token < hi <= |row|
    && (forall i :: lo <= i < hi ==> OrderedKey(row[i]) <= OrderedKey(row[token]))
    && (forall i :: lo <= i < token ==> OrderedKey(row[i]) < OrderedKey(row[token]))
  }

  /** The plain serial argmax over the represented numbers: lowest index of a greatest value. */
  predicate IsArgmax(row: seq<Word>, token: nat) {
    && token < |row|
    && (forall i :: 0 <= i < |row| ==> Value(row[i]) <= Value(row[token]))
    && (forall i :: 0 <= i < token ==> Value(row[i]) < Value(row[token]))
  }

  lemma ArgmaxByKey(row: seq<Word>, token: nat)
    requires FiniteRow(row)
    ensures FirstMaximum(row, 0, |row|, token) <==> IsArgmax(row, token)
  {
    if token < |row| {
      forall i | 0 <= i < |row|
        ensures OrderedKey(row[i]) < OrderedKey(row[token]) <==> Value(row[i]) < Value(row[token])
        ensures OrderedKey(row[i]) <= OrderedKey(row[token]) <==> Value(row[i]) <= Value(row[token])
      {
        KeyOrdersValues(row[i], row[token]);
      }
    }
  }

  lemma ArgmaxUnique(row: seq<Word>, t: nat, u: nat)
    requires IsArgmax(row, t) && IsArgmax(row, u)
    ensures t == u
  {
    var x, y := Value(row[t]), Value(row[u]);
    assert x <= y <= x;
  }

  // ----- Winners of several workers

  /** A worker's candidate: the key of its best score and the token holding it. */
  datatype Winner = Winner(key: Word, token: nat)

  /** Greatest key, lowest token among equals. */
  predicate Beats(a: Winner, b: Winner) {
    a.key > b.key || (a.key == b.key && a.token <= b.token)
  }

  predicate BestOf(winners: seq<Winner>, best: Winner) {
    best in winners && forall i :: 0 <= i < |winners| ==> Beats(best, winners[i])
  }

  /** Python's `max(winners, key=lambda item: (item[0], -item[1]))`. */
  method MaxWinner(winners: seq<Winner>) returns (best: Winner)
    requires |winners| > 0
    ensures BestOf(winners, best)
  {
    best := winners[0];
    for i := 1 to |winners|
      invariant best in winners
      invariant forall j :: 0 <= j < i ==> Beats(best, winners[j])
    {
      if winners[i].key > best.key || (winners[i].key == best.key && winners[i].token < best.token) {
        best := winners[i];
      }
    }
  }

  predicate RangeWinner(row: seq<Word>, lo: nat, hi: nat, winner: Winner) {
    FirstMaximum(row, lo, hi, winner.token) && winner.key == OrderedKey(row[winner.token])
  }

  predicate RangeWinners(row: seq<Word>, bounds: seq<nat>, winners: seq<Winner>) {
    |winners| < |bounds| &&
    forall w :: 0 <= w < |winners| ==> RangeWinner(row, bounds[w], bounds[w + 1], winners[w])
  }

  /** The best of all range winners is the serial argmax, however the row is partitioned. */
  lemma RangesReduce(row: seq<Word>, bounds: seq<nat>, winners: seq<Winner>, best: Winner)
    requires FiniteRow(row) && IsPartition(bounds, |row|)
    requires |winners| == |bounds| - 1 && RangeWinners(row, bounds, winners) && BestOf(winners, best)
    ensures IsArgmax(row, best.token) && best.key == OrderedKey(row[best.token])
  {
    var b :| 0 <= b < |winners| && winners[b] == best;
    forall i | 0 <= i < |row|
      ensures OrderedKey(row[i]) <= best.key
      ensures i < best.token ==> OrderedKey(row[i]) < best.key
    {
      var w := OwnerExists(bounds, i, |bounds| - 1);
      assert Beats(best, winners[w]);
      assert RangeWinner(row, bounds[w], bounds[w + 1], winners[w]);
    }
    assert bounds[b + 1] <= bounds[|bounds| - 1];
    ArgmaxByKey(row, best.token);
  }

  /** The scan of one partition in host `select`. */
  method PartitionWinner(bits: seq<Word>, start: nat, end: nat) returns (r: Result<Winner>)
    requires start < end <= |bits|
    ensures r.Ok? <==> FiniteRange(bits, start, end)
    ensures r.Ok? ==> RangeWinner(bits, start, end, r.value)
  {
    if !Finite(bits[start]) {
      return Raised;
    }
    var winner, maximum := start, OrderedKey(bits[start]);
    for token := start + 1 to end
      invariant FirstMaximum(bits, start, token, winner) && maximum == OrderedKey(bits[winner])
      invariant FiniteRange(bits, start, token)
    {
      if !Finite(bits[token]) {
        return Raised;
      }
      var key := OrderedKey(bits[token]);
      if key > maximum {
        winner, maximum := token, key;
      }
    }
    r := Ok(Winner(maximum, winner));
  }

  /** Host `select`: partition winners, then the best of them; raises on any nonfinite score. */
  method Select(bits: seq<Word>, workers: int) returns (r: Result<nat>)
    ensures r.Ok? <==> 1 <= workers <= |bits| && FiniteRow(bits)
    ensures r.Ok? ==> IsArgmax(bits, r.value)
  {
    if |bits| < 1 || !(1 <= workers <= |bits|) {
      return Raised;
    }
    r := SelectOver(bits, Partitions(|bits|, workers));
  }

  method SelectOver(bits: seq<Word>, bounds: seq<nat>) returns (r: Result<nat>)
    requires IsPartition(bounds, |bits|)
    ensures r.Ok? <==> FiniteRow(bits)
    ensures r.Ok? ==> IsArgmax(bits, r.value)
  {
    var winners: seq<Winner> := [];
    for w := 0 to |bounds| - 1
      invariant |winners| == w && RangeWinners(bits, bounds, winners)
      invariant FiniteRange(bits, 0, bounds[w])
    {
      assert bounds[w + 1] <= bounds[|bounds| - 1];
      var winner := PartitionWinner(bits, bounds[w], bounds[w + 1]);
      if winner.Raised? {
        return Raised;
      }
      winners := winners + [winner.value];
    }
    var best := MaxWinner(winners);
    RangesReduce(bits, bounds, winners, best);
    r := Ok(best.token);
  }

  // ----- Records

  type Record = record: seq<Word> | |record| == 8 witness [0, 0, 0, 0, 0, 0, 0, 0]

  /** Host acceptance of a record for tokens in [lo, hi): finite score, own token, zero reserved words. */
  predicate ValidRecord(record: seq<int>, lo: nat, hi: nat) {
    && |record| == 8
    && (forall i :: 0 <= i < 8 ==> 0 <= record[i] < TWO_32)
    && Finite(record[0])
    && lo <= record[1] < hi
    && (forall i :: 2 <= i < 8 ==> record[i] == 0)
  }

  /** Every worker's record is acceptable for its range of the token boundaries. */
  predicate ValidRecords(records: seq<seq<int>>, bounds: seq<nat>) {
    |records| == |bounds| - 1 &&
    forall w :: 0 <= w < |records| ==> ValidRecord(records[w], bounds[w], bounds[w + 1])
  }

  function RecordWinner(record: seq<int>): Winner
    requires |record| == 8 && 0 <= record[0] < TWO_32 && 0 <= record[1]
  {
    Winner(OrderedKey(record[0]), record[1])
  }

  /** The winners that valid records carry. */
  function RecordWinners(records: seq<seq<int>>, bounds: seq<nat>): (winners: seq<Winner>)
    requires ValidRecords(records, bounds)
    ensures |winners| == |records|
    ensures forall w :: 0 <= w < |winners| ==>
              ValidRecord(records[w], bounds[w], bounds[w + 1]) && winners[w] == RecordWinner(records[w])
  {
    seq(|records|, (w: nat) requires w < |records| && ValidRecord(records[w], bounds[w], bounds[w + 1]) =>
      RecordWinner(records[w]))
  }

  /** The token boundaries of `partitions(tiles, workers)`: 32 tokens to a tile. */
  function TokenBounds(tiles: nat, workers: nat): (bounds: seq<nat>)
    requires 1 <= workers <= tiles
    ensures |bounds| == workers + 1 && IsPartition(bounds, tiles * 32)
    ensures forall w :: 0 <= w <= workers ==> bounds[w] == Partitions(tiles, workers)[w] * 32
  {
    var bounds := Partitions(tiles, workers);
    seq(workers + 1, (w: nat) requires w <= workers => bounds[w] * 32)
  }

  /** Host `reduce_records`. */
  method ReduceRecords(records: seq<seq<int>>, vocabulary: int) returns (r: Result<int>)
    ensures r.Ok? <==> vocabulary in {64, 248320} && 1 <= |records| <= vocabulary / 32
                       && ValidRecords(records, TokenBounds(vocabulary / 32, |records|))
    ensures r.Ok? ==> exists best ::
              BestOf(RecordWinners(records, TokenBounds(vocabulary / 32, |records|)), best) && best.token == r.value
  {
    if vocabulary !in {64, 248320} {
      return Raised;
    }
    var tiles := vocabulary / 32;
    if !(1 <= |records| <= tiles) {
      return Raised;
    }
    r := ReduceOver(records, TokenBounds(tiles, |records|));
  }

  method ReduceOver(records: seq<seq<int>>, bounds: seq<nat>) returns (r: Result<int>)
    requires |records| == |bounds| - 1 && |records| > 0
    ensures r.Ok? <==> ValidRecords(records, bounds)
    ensures r.Ok? ==> exists best :: BestOf(RecordWinners(records, bounds), best) && best.token == r.value
  {
    var winners: seq<Winner> := [];
    for w := 0 to |records|
      invariant |winners| == w
      invariant forall v :: 0 <= v < w ==>
                  ValidRecord(records[v], bounds[v], bounds[v + 1]) && winners[v] == RecordWinner(records[v])
    {
      if !ValidRecord(records[w], bounds[w], bounds[w + 1]) {
        return Raised;
      }
      winners := winners + [RecordWinner(records[w])];
    }
    var best := MaxWinner(winners);
    assert winners == RecordWinners(records, bounds);
    r := Ok(best.token);
  }
}
