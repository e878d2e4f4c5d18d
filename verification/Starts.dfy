/** The start of a pool run, as `engine_run_download` makes it (src/engine/engine_runner.c). */
module Starts {
  import opened Common
  import opened Transfer
  import opened Pool
  import opened Engine
  import S = Segmenter

  /** Which chunk counter each range's callbacks bump. */
  method ProgressSlots(chunkSlotForRange: seq<nat>) returns (progress: seq<int>)
    requires |chunkSlotForRange| <= MAX_WORKERS
    ensures |progress| == MAX_WORKERS
    ensures forall i :: 0 <= i < MAX_WORKERS ==>
      progress[i] == if i < |chunkSlotForRange| then chunkSlotForRange[i] else -1
  {
    progress := seq(MAX_WORKERS, _ => -1);
    var i := 0;
    while i < |chunkSlotForRange|
      invariant 0 <= i <= |chunkSlotForRange| && |progress| == MAX_WORKERS
      invariant forall j :: 0 <= j < MAX_WORKERS ==> progress[j] == if j < i then chunkSlotForRange[j] else -1
    {
      progress := progress[i := chunkSlotForRange[i]];
      i := i + 1;
    }
  }

  /** The chunks in memory and their rows, as they were saved. */
  function SavedTables(chunks: seq<SavedChunk>, live: seq<nat>, progress: seq<int>): Tables {
    Tables(seq(|chunks|, j requires 0 <= j < |chunks| => Chunk(chunks[j].start, chunks[j].end)), live, progress,
           seq(|chunks|, j requires 0 <= j < |chunks| => Row(chunks[j].start, chunks[j].end, chunks[j].done)))
  }

  /** Resuming from what is on disk: plan the ranges, connect their counters, create the pool. The pool's state is
      the one from which the runs of the step system begin. */
  method Resume(d: Disk) returns (pool: RebalancePool)
    requires |d.chunks| <= MAX_WORKERS && AlreadyDone(d.chunks) >= 0
    ensures fresh(pool) && pool.View() == StartState(d, AlreadyDone(d.chunks))
  {
    var ranges, chunkSlotForRange, downloaded, live := PlanResume(d.chunks);
    var progress := ProgressSlots(chunkSlotForRange);
    pool := new RebalancePool(ranges, progress, d.file, downloaded, SavedTables(d.chunks, live, progress));
    ghost var s := StartState(d, AlreadyDone(d.chunks));
    assert PlanOf(Disk(d.chunks, [])) == PlanOf(d);
    assert pool.slots == s.slots && pool.workers == s.workers;
    assert pool.live == s.live && pool.progressSlots == s.progressSlots;
  }

  /** Starting afresh on a file that has been given its full length: choose the number of workers, cut the file, store
      the pieces. What is then on disk is the plan that `Resume` starts from. */
  method Begin(ghost content: seq<Byte>, file: seq<Byte>) returns (d: Disk)
    requires 1 <= |content| == |file| < TWO64
    ensures FreshPlan(content, d) && d.file == file
  {
    var total := |file|;
    var workers := S.ChooseWorkerCount(total);
    S.ChosenPlanFits(total);
    var out := new S.Range[MAX_WORKERS](i => S.Range(0, 0, 0, false));
    var n := S.SegmenterPlan(total, workers, out);
    forall i | 0 <= i < n ensures out[..n][i].end >= 0 { S.PlanIsContiguous(total, workers, i); }
    ghost var crashes;
    var rows, chunks;
    rows, chunks, crashes := PersistPlan(out[..n]);
    d := Disk(chunks, file);
    var p := S.Plan(total, workers);
    assert chunks == seq(|p|, i requires 0 <= i < |p| => SavedChunk(p[i].start, p[i].end + 1, 0)) by {
      forall i | 0 <= i < |p| ensures p[i].end >= 0 { S.PlanIsContiguous(total, workers, i); }
    }
  }

  /** That is never less than nothing. */
  lemma {:induction false} DoneIsNatural(chunks: seq<SavedChunk>)
    requires forall ch :: ch in chunks ==> ch.start <= ch.end
    ensures AlreadyDone(chunks) >= 0
  {
    if chunks != [] { DoneIsNatural(chunks[..|chunks| - 1]); }
  }
}
