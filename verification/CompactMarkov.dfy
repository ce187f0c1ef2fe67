/** The Markov feedback chain over the score kernels and its readback check (scripts/ci/compact_markov.py). */
module CompactMarkov {
  import opened Bits
  import opened Fp32
  import opened Results
  import opened ScoreKernels
  import opened ScoreSelection

  /**
   * One chip: its tiled base scores, and the bias row that embedding and matmul produce for the previous
   * token (not interpreted), with the device addition.
   */
  datatype Chip = Chip(base: seq<Page>, bias: Word -> seq<Page>, add: (Word, Word) -> Word)

  ghost predicate ValidChip(chip: Chip, tiles: nat) {
    |chip.base| == tiles && forall id: Word :: |chip.bias(id)| == tiles
  }

  ghost predicate ValidMesh(mesh: seq<Chip>, tiles: nat) {
    forall c :: 0 <= c < |mesh| ==> ValidChip(mesh[c], tiles)
  }

  /** The shapes `execute` accepts, with the worker count of `geometry`. */
  predicate Shape(tiles: nat, workers: nat) {
    tiles in {2, 7760} && 1 <= workers <= tiles && workers <= MAX_WORKERS
  }

  // ----- The feedback loop

  /** The score row of step `k` after token `previous`. */
  function StepRow(chip: Chip, previous: Word, k: nat): (row: seq<Word>)
    requires k < 32 && |chip.bias(previous)| == |chip.base|
    ensures |row| == |chip.base| * 32
  {
    ScoreRow(chip.base, chip.bias(previous), chip.add, k)
  }

  /** The winners of all workers for one score row. */
  method LocalWinners(base: seq<Page>, bias: seq<Page>, add: (Word, Word) -> Word, step: nat, workers: nat)
    returns (records: seq<Record>)
    requires Geometry(workers, |base|) && |base| == |bias| && step < 32
    ensures records == WorkerRecords(ScoreRow(base, bias, add, step), TokenBounds(|base|, workers))
  {
    records := [];
    for worker := 0 to workers
      invariant |records| == worker
      invariant forall w :: 0 <= w < worker ==>
                  records[w] == WorkerRecord(ScoreRow(base, bias, add, step), TokenBounds(|base|, workers), w)
    {
      var record := IoKernel(base, bias, add, worker, workers, |base|, step);
      records := records + [record];
    }
  }

  /** One step on one chip: embed the previous token, score, find the local winners, reduce. */
  method ChipStep(chip: Chip, previous: Word, step: nat, workers: nat) returns (record: Record)
    requires Geometry(workers, |chip.base|) && workers <= MAX_WORKERS && step < 32
    requires |chip.bias(previous)| == |chip.base|
    ensures Selects(StepRow(chip, previous, step), record)
  {
    record := SelectToken(chip.base, chip.bias(previous), chip.add, step, workers);
    StepSelects(StepRow(chip, previous, step), |chip.base|, workers);
  }

  /** The two kernels on one score row. */
  method SelectToken(base: seq<Page>, bias: seq<Page>, add: (Word, Word) -> Word, step: nat, workers: nat)
    returns (record: Record)
    requires Geometry(workers, |base|) && workers <= MAX_WORKERS && |base| == |bias| && step < 32
    ensures IsPartition(TokenBounds(|base|, workers), |base| * 32)
    ensures record == SelectedRecord(ScoreRow(base, bias, add, step), TokenBounds(|base|, workers))
  {
    var winners := LocalWinners(base, bias, add, step, workers);
    record := ReduceKernel(winners, |base|);
  }

  lemma StepSelects(row: seq<Word>, tiles: nat, workers: nat)
    requires Geometry(workers, tiles) && workers <= MAX_WORKERS && |row| == tiles * 32
    ensures IsPartition(TokenBounds(tiles, workers), |row|)
    ensures Selects(row, SelectedRecord(row, TokenBounds(tiles, workers)))
  {
    KernelsSelectArgmax(row, TokenBounds(tiles, workers));
  }

  /** The id fed to the embedding of chip `c` at step `k`: the anchor, then word 3 of the record before. */
  function Previous(anchor: Word, records: seq<seq<Record>>, k: nat, c: nat): Word
    requires k <= |records| && forall j :: 0 <= j < k ==> c < |records[j]|
  {
    if k == 0 then anchor else records[k - 1][c][3]
  }

  /** The record of step `k` on chip `c` selects from the scores that follow the fed-back token. */
  ghost predicate ChainLink(mesh: seq<Chip>, anchor: Word, records: seq<seq<Record>>, k: nat, c: nat)
    requires k < |records| < 32 && c < |mesh| && ValidChip(mesh[c], |mesh[c].base|)
    requires forall j :: 0 <= j < |records| ==> |records[j]| == |mesh|
  {
    Selects(StepRow(mesh[c], Previous(anchor, records, k, c), k), records[k][c])
  }

  /** The records of a run, step by step and chip by chip. */
  ghost predicate RunOf(mesh: seq<Chip>, tiles: nat, anchor: Word, records: seq<seq<Record>>)
    requires ValidMesh(mesh, tiles) && |records| < 32
  {
    && (forall j :: 0 <= j < |records| ==> |records[j]| == |mesh|)
    && forall k, c :: 0 <= k < |records| && 0 <= c < |mesh| ==> ChainLink(mesh, anchor, records, k, c)
  }

  /** One step on every chip. */
  method MeshStep(mesh: seq<Chip>, previous: seq<Word>, step: nat, tiles: nat, workers: nat)
    returns (row: seq<Record>)
    requires Shape(tiles, workers) && step < 32 && ValidMesh(mesh, tiles) && |previous| == |mesh|
    ensures |row| == |mesh|
    ensures forall c :: 0 <= c < |mesh| ==> Selects(StepRow(mesh[c], previous[c], step), row[c])
  {
    row := [];
    for c := 0 to |mesh|
      invariant |row| == c
      invariant forall d :: 0 <= d < c ==> Selects(StepRow(mesh[d], previous[d], step), row[d])
    {
      var record := ChipStep(mesh[c], previous[c], step, workers);
      row := row + [record];
    }
  }

  /** All steps on all chips; every chip feeds its own word 3 back, and nothing is read by the host meanwhile. */
  method Execute(mesh: seq<Chip>, anchor: Word, steps: nat, tiles: nat, workers: nat)
    returns (records: seq<seq<Record>>)
    requires Shape(tiles, workers) && steps <= 15 && ValidMesh(mesh, tiles)
    ensures |records| == steps && RunOf(mesh, tiles, anchor, records)
  {
    records := [];
    var previous: seq<Word> := seq(|mesh|, _ => anchor);
    for step := 0 to steps
      invariant |records| == step && RunOf(mesh, tiles, anchor, records)
      invariant |previous| == |mesh|
      invariant forall c :: 0 <= c < |mesh| ==> previous[c] == Previous(anchor, records, step, c)
    {
      var row := MeshStep(mesh, previous, step, tiles, workers);
      RunExtends(mesh, tiles, anchor, records, row, previous);
      records := records + [row];
      previous := seq(|mesh|, c requires 0 <= c < |row| => row[c][3]);
    }
  }

  lemma RunExtends(mesh: seq<Chip>, tiles: nat, anchor: Word, records: seq<seq<Record>>, row: seq<Record>,
                   previous: seq<Word>)
    requires ValidMesh(mesh, tiles) && |records| < 31 && RunOf(mesh, tiles, anchor, records)
    requires |row| == |mesh| == |previous|
    requires forall c :: 0 <= c < |mesh| ==> previous[c] == Previous(anchor, records, |records|, c)
    requires forall c :: 0 <= c < |mesh| ==> Selects(StepRow(mesh[c], previous[c], |records|), row[c])
    ensures RunOf(mesh, tiles, anchor, records + [row])
  {
    var longer := records + [row];
    forall k, c | 0 <= k < |longer| && 0 <= c < |mesh| ensures ChainLink(mesh, anchor, longer, k, c) {
      assert Previous(anchor, longer, k, c) == Previous(anchor, records, k, c);
      if k < |records| {
        assert ChainLink(mesh, anchor, records, k, c);
      }
    }
  }

  // ----- The readback check

  /** The host's condition on one chip's record and token. */
  predicate AcceptedRecord(record: seq<int>, token: int, vocabulary: nat) {
    && |record| == 8 && (forall i :: 0 <= i < 8 ==> 0 <= record[i] < TWO_32)
    && record[1] == 0 && 0 <= record[0] < vocabulary
    && record[0] == record[3] == token
    && (forall i :: 4 <= i < 8 ==> record[i] == 0)
    && Finite(record[2])
  }

  predicate AcceptedPair(records: seq<seq<int>>, selected: seq<int>, vocabulary: nat) {
    && |records| == 2 && |selected| == 2
    && AcceptedRecord(records[0], selected[0], vocabulary) && AcceptedRecord(records[1], selected[1], vocabulary)
  }

  predicate AcceptedReadback(diagnostics: seq<seq<seq<int>>>, tokens: seq<seq<int>>, vocabulary: nat) {
    && vocabulary in {64, 248320} && |diagnostics| in {3, 7, 15} && |tokens| == |diagnostics|
    && forall k :: 0 <= k < |diagnostics| ==> AcceptedPair(diagnostics[k], tokens[k], vocabulary)
  }

  /** The record of a token and its score word, as the reduction writes it when no record was invalid. */
  function SelectedRecordOf(token: int, bits: int): seq<int> { [token, 0, bits, token, 0, 0, 0, 0] }

  /** The host accepts exactly the records of a token of the vocabulary with a finite score word. */
  lemma AcceptedExactlyWhen(record: seq<int>, token: int, vocabulary: nat)
    requires vocabulary <= TWO_32
    ensures AcceptedRecord(record, token, vocabulary) <==>
            0 <= token < vocabulary &&
            exists bits: Word :: Finite(bits) && record == SelectedRecordOf(token, bits)
  {
    if AcceptedRecord(record, token, vocabulary) {
      assert record == SelectedRecordOf(token, record[2]);
    }
  }

  /** The checks on one step's pair of records. */
  method ValidatePair(records: seq<seq<Word>>, selected: seq<Word>, vocabulary: nat) returns (ok: bool)
    ensures ok == AcceptedPair(records, selected, vocabulary)
  {
    if |records| != 2 || |selected| != 2 {
      return false;
    }
    for c := 0 to 2
      invariant forall d :: 0 <= d < c ==> AcceptedRecord(records[d], selected[d], vocabulary)
    {
      var record, token := records[c], selected[c];
      if |record| != 8 || record[1] != 0 || !(0 <= record[0] < vocabulary) || record[0] != record[3]
        || record[3] != token || (exists i :: 4 <= i < 8 && record[i] != 0) || !Finite(record[2])
      {
        assert !AcceptedRecord(record, token, vocabulary);
        return false;
      }
    }
    ok := true;
  }

  /** `validate_readback` on the unsigned words read back. */
  method ValidateReadback(diagnostics: seq<seq<seq<Word>>>, tokens: seq<seq<Word>>, vocabulary: nat)
    returns (r: Result<bool>)
    ensures r == if AcceptedReadback(diagnostics, tokens, vocabulary) then Ok(true) else Raised
  {
    if vocabulary !in {64, 248320} || |diagnostics| !in {3, 7, 15} || |tokens| != |diagnostics| {
      return Raised;
    }
    for k := 0 to |diagnostics|
      invariant forall j :: 0 <= j < k ==> AcceptedPair(diagnostics[j], tokens[j], vocabulary)
    {
      var ok := ValidatePair(diagnostics[k], tokens[k], vocabulary);
      if !ok {
        return Raised;
      }
    }
    r := Ok(true);
  }

  // ----- What acceptance means

  ghost predicate GreedyStep(chip: Chip, previous: Word, k: nat, token: Word)
    requires k < 32 && ValidChip(chip, |chip.base|)
  {
    IsArgmax(StepRow(chip, previous, k), token)
  }

  /** Token k is the serial argmax of the scores that follow token k - 1 (the anchor at step 0). */
  ghost predicate GreedyChain(chip: Chip, anchor: Word, tokens: seq<Word>)
    requires |tokens| < 32 && ValidChip(chip, |chip.base|)
  {
    forall k :: 0 <= k < |tokens| ==> GreedyStep(chip, if k == 0 then anchor else tokens[k - 1], k, tokens[k])
  }

  /** A selected record passes the host's check exactly when its scores are finite, and then names the argmax. */
  lemma SelectedAccepted(row: seq<Word>, record: Record, token: Word)
    requires Selects(row, record) && 0 < |row|
    ensures AcceptedRecord(record, record[0], |row|) <==> FiniteRow(row)
    ensures AcceptedRecord(record, token, |row|) ==> token == record[3] && IsArgmax(row, token)
    ensures record[3] < |row|
  {
    if FiniteRow(row) {
      assert Finite(row[record[0]]);
    }
  }

  /** Every id fed to the embedding is in the vocabulary, whatever the scores were. */
  lemma FeedbackInVocabulary(mesh: seq<Chip>, tiles: nat, anchor: Word, records: seq<seq<Record>>, k: nat, c: nat)
    requires 0 < tiles && ValidMesh(mesh, tiles) && |records| < 32 && RunOf(mesh, tiles, anchor, records)
    requires anchor < tiles * 32 && k <= |records| && c < |mesh|
    ensures Previous(anchor, records, k, c) < tiles * 32
  {
    if k > 0 {
      assert ChainLink(mesh, anchor, records, k - 1, c);
      SelectedAccepted(StepRow(mesh[c], Previous(anchor, records, k - 1, c), k - 1), records[k - 1][c], 0);
    }
  }

  function Column(rows: seq<seq<Word>>, c: nat): (column: seq<Word>)
    requires forall k :: 0 <= k < |rows| ==> c < |rows[k]|
    ensures |column| == |rows| && forall k :: 0 <= k < |rows| ==> column[k] == rows[k][c]
  {
    seq(|rows|, (k: nat) requires k < |rows| => rows[k][c])
  }

  lemma AcceptedStep(mesh: seq<Chip>, tiles: nat, anchor: Word, records: seq<seq<Record>>, tokens: seq<seq<Word>>,
                     k: nat, c: nat)
    requires 0 < tiles && |mesh| == 2 && ValidMesh(mesh, tiles) && k < |records| < 32 && c < 2
    requires RunOf(mesh, tiles, anchor, records) && AcceptedReadback(records, tokens, tiles * 32)
    ensures |tokens| == |records| && |tokens[k]| == 2 && tokens[k][c] == records[k][c][3]
    ensures GreedyStep(mesh[c], Previous(anchor, records, k, c), k, tokens[k][c])
    ensures FiniteStep(mesh, anchor, records, k, c)
  {
    assert AcceptedPair(records[k], tokens[k], tiles * 32);
    assert ChainLink(mesh, anchor, records, k, c);
    SelectedAccepted(StepRow(mesh[c], Previous(anchor, records, k, c), k), records[k][c], tokens[k][c]);
    RecordAcceptedIffFinite(mesh, tiles, anchor, records, k, c);
  }

  /**
   * Whatever tokens are presented, acceptance makes them the greedy argmax chain on each chip, every step of which
   * saw only finite scores.
   */
  lemma AcceptedIsGreedy(mesh: seq<Chip>, tiles: nat, anchor: Word, records: seq<seq<Record>>,
                         tokens: seq<seq<Word>>, c: nat)
    requires 0 < tiles && |mesh| == 2 && ValidMesh(mesh, tiles) && |records| < 32 && c < 2
    requires RunOf(mesh, tiles, anchor, records) && AcceptedReadback(records, tokens, tiles * 32)
    ensures (forall k :: 0 <= k < |tokens| ==> |tokens[k]| == 2) && |tokens| == |records|
    ensures GreedyChain(mesh[c], anchor, Column(tokens, c))
    ensures forall k :: 0 <= k < |records| ==> FiniteStep(mesh, anchor, records, k, c)
  {
    forall k | 0 <= k < |tokens|
      ensures |tokens[k]| == 2 && tokens[k][c] == records[k][c][3]
      ensures GreedyStep(mesh[c], Previous(anchor, records, k, c), k, tokens[k][c])
      ensures FiniteStep(mesh, anchor, records, k, c)
    {
      AcceptedStep(mesh, tiles, anchor, records, tokens, k, c);
    }
  }

  /** The scores of step `k` on chip `c` of a run are all finite. */
  ghost predicate FiniteStep(mesh: seq<Chip>, anchor: Word, records: seq<seq<Record>>, k: nat, c: nat)
    requires k < |records| < 32 && c < |mesh| && ValidChip(mesh[c], |mesh[c].base|)
    requires forall j :: 0 <= j < |records| ==> |records[j]| == |mesh|
  {
    FiniteRow(StepRow(mesh[c], Previous(anchor, records, k, c), k))
  }

  /**
   * With the token words of the run itself, the check accepts exactly when every step of both chips saw
   * only finite scores: one nonfinite score anywhere discards the whole chain.
   */
  lemma AcceptedIffFinite(mesh: seq<Chip>, tiles: nat, anchor: Word, records: seq<seq<Record>>,
                          tokens: seq<seq<Word>>)
    requires tiles in {2, 7760} && |mesh| == 2 && ValidMesh(mesh, tiles) && |records| in {3, 7, 15}
    requires RunOf(mesh, tiles, anchor, records) && |tokens| == |records|
    requires forall k :: 0 <= k < |records| ==> tokens[k] == [records[k][0][0], records[k][1][0]]
    ensures AcceptedReadback(records, tokens, tiles * 32) <==>
            forall k :: 0 <= k < |records| ==>
              FiniteStep(mesh, anchor, records, k, 0) && FiniteStep(mesh, anchor, records, k, 1)
  {
    forall k | 0 <= k < |records|
      ensures AcceptedPair(records[k], tokens[k], tiles * 32) <==>
              FiniteStep(mesh, anchor, records, k, 0) && FiniteStep(mesh, anchor, records, k, 1)
    {
      PairAcceptedIffFinite(mesh, tiles, anchor, records, tokens[k], k);
    }
  }

  lemma PairAcceptedIffFinite(mesh: seq<Chip>, tiles: nat, anchor: Word, records: seq<seq<Record>>,
                              selected: seq<Word>, k: nat)
    requires 0 < tiles && |mesh| == 2 && ValidMesh(mesh, tiles) && k < |records| < 32 &&
               RunOf(mesh, tiles, anchor, records)
    requires selected == [records[k][0][0], records[k][1][0]]
    ensures AcceptedPair(records[k], selected, tiles * 32) <==>
            FiniteStep(mesh, anchor, records, k, 0) && FiniteStep(mesh, anchor, records, k, 1)
  {
    RecordAcceptedIffFinite(mesh, tiles, anchor, records, k, 0);
    RecordAcceptedIffFinite(mesh, tiles, anchor, records, k, 1);
  }

  lemma RecordAcceptedIffFinite(mesh: seq<Chip>, tiles: nat, anchor: Word, records: seq<seq<Record>>, k: nat, c: nat)
    requires 0 < tiles && ValidMesh(mesh, tiles) && k < |records| < 32 && c < |mesh| &&
               RunOf(mesh, tiles, anchor, records)
    ensures AcceptedRecord(records[k][c], records[k][c][0], tiles * 32) <==> FiniteStep(mesh, anchor, records, k, c)
  {
    assert ChainLink(mesh, anchor, records, k, c);
    SelectedAccepted(StepRow(mesh[c], Previous(anchor, records, k, c), k), records[k][c], 0);
  }
}
