/** Worker count and worker-to-core layout of the local score kernels (scripts/ci/compact_score_device.py). */
module ScoreDevice {
  import opened Arithmetic
  import opened Results
  import ScoreKernels

  /** `geometry`: the worker and tile counts for the supported score shapes. */
  method Geometry(steps: int, width: int, biasWidth: int, step: int, workerLimit: int)
    returns (r: Result<(nat, nat)>)
    ensures r.Ok? <==> steps in {1, 3, 7, 15} && width in {64, 248320} && biasWidth == width && 0 <= step < steps
                       && workerLimit in {1, 64, 110}
    ensures r.Ok? ==> r.value.1 * 32 == width && r.value.0 <= workerLimit && ScoreKernels.Geometry(r.value.0, r.value.1)
    ensures r.Ok? ==> r.value.0 == workerLimit || r.value.0 == r.value.1
  {
    if steps !in {1, 3, 7, 15} || width !in {64, 248320} || biasWidth != width || !(0 <= step < steps)
      || workerLimit !in {1, 64, 110}
    {
      return Raised;
    }
    var tiles := width / 32;
    r := Ok((if tiles < workerLimit then tiles else workerLimit, tiles));
  }

  datatype Core = Core(x: nat, y: nat)

  /** The core that gets worker `w`'s runtime arguments. */
  function CoreOf(w: nat, columns: nat): Core
    requires columns > 0
  {
    Core(w % columns, w / columns)
  }

  /** The core ranges: full rows of `columns` cores, then a partial row. */
  predicate InRanges(core: Core, workers: nat, columns: nat)
    requires columns > 0
  {
    var rows, remainder := workers / columns, workers % columns;
    (core.x < columns && core.y < rows) || (core.x < remainder && core.y == rows)
  }

  /** The grid index of a core lies below the worker count exactly when the ranges hold the core. */
  lemma IndexInRanges(core: Core, workers: nat, columns: nat)
    requires 0 < columns <= workers && core.x < columns
    ensures InRanges(core, workers, columns) <==> columns * core.y + core.x < workers
  {
    var rows, remainder := workers / columns, workers % columns;
    assert workers == columns * rows + remainder;
    if core.y < rows {
      MulOrder(columns, core.y + 1, rows);
      MulDistributes(core.y, 1, columns);
    } else if core.y > rows {
      MulOrder(columns, rows + 1, core.y);
      MulDistributes(rows, 1, columns);
    }
  }

  lemma CoreOfIndex(core: Core, columns: nat)
    requires core.x < columns
    ensures CoreOf(columns * core.y + core.x, columns) == core
  {
    DivModUnique(columns * core.y + core.x, columns, core.y, core.x);
  }

  lemma IndexOfCore(w: nat, columns: nat)
    requires columns > 0
    ensures var core := CoreOf(w, columns); core.x < columns && w == columns * core.y + core.x
  {
  }

  /** Every core of the ranges runs exactly one worker, and every worker has its core there. */
  lemma CoresRunOneWorkerEach(core: Core, workers: nat, columns: nat)
    requires 0 < columns <= workers
    ensures InRanges(core, workers, columns) <==> exists w :: 0 <= w < workers && CoreOf(w, columns) == core
    ensures forall v, w :: 0 <= v < workers && 0 <= w < workers && CoreOf(v, columns) == core == CoreOf(w, columns) ==>
              v == w
  {
    forall w | 0 <= w < workers && CoreOf(w, columns) == core
      ensures core.x < columns && w == columns * core.y + core.x && InRanges(core, workers, columns)
    {
      IndexOfCore(w, columns);
      IndexInRanges(core, workers, columns);
    }
    if InRanges(core, workers, columns) {
      RangesWithin(core, workers, columns);
      IndexInRanges(core, workers, columns);
      CoreOfIndex(core, columns);
      assert 0 <= columns * core.y + core.x < workers && CoreOf(columns * core.y + core.x, columns) == core;
    }
  }

  lemma RangesWithin(core: Core, workers: nat, columns: nat)
    requires columns > 0 && InRanges(core, workers, columns)
    ensures core.x < columns
  {
  }
}
