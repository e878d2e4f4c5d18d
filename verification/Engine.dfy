/** Planning, resuming and finishing a download over any number of runs
    (src/engine/engine_runner.c). */
module Engine {
  import opened Common
  import opened Transfer
  import opened TransferSafety
  import opened TransferCoverage
  import opened TransferClaims
  import opened TransferCalm
  import opened TransferCounts
  import S = Segmenter

  /** A chunk as it survives a run: `[start, end)` with its first `done` bytes claimed. */
  datatype SavedChunk = SavedChunk(start: nat, end: nat, done: nat)

  /** What a stopped download leaves behind. */
  datatype Disk = Disk(chunks: seq<SavedChunk>, file: seq<Byte>)

  /** `chunk_is_complete`. */
  predicate Complete(ch: SavedChunk) { ch.done >= ch.end - ch.start }

  // ----- planning a resume -----

  /** Indices of the chunks that still miss bytes, in table order. */
  function Incomplete(chunks: seq<SavedChunk>): (r: seq<nat>)
    ensures |r| <= |chunks|
    ensures forall i :: 0 <= i < |r| ==> r[i] < |chunks|
  {
    if chunks == [] then []
    else
      var n := |chunks| - 1;
      var rest := Incomplete(chunks[..n]);
      if Complete(chunks[n]) then rest else rest + [n]
  }

  /** Exactly the incomplete chunks are planned, each once. */
  lemma {:induction false} IncompleteFacts(chunks: seq<SavedChunk>)
    ensures var r := Incomplete(chunks);
      && (forall i :: 0 <= i < |r| ==> !Complete(chunks[r[i]]))
      && (forall i, j :: 0 <= i < j < |r| ==> r[i] < r[j])
      && (forall j :: 0 <= j < |chunks| && !Complete(chunks[j]) ==> j in r)
  {
    if chunks != [] { IncompleteFacts(chunks[..|chunks| - 1]); }
  }

  /** Bytes the counter starts from: complete chunks whole, the others as far as they got. */
  function AlreadyDone(chunks: seq<SavedChunk>): int {
    if chunks == [] then 0
    else
      var n := |chunks| - 1;
      var ch := chunks[n];
      AlreadyDone(chunks[..n]) + (if Complete(ch) then ch.end - ch.start else ch.done)
  }

  lemma OneMore(chunks: seq<SavedChunk>, i: nat)
    requires i < |chunks|
    ensures Incomplete(chunks[..i + 1]) == Incomplete(chunks[..i]) + (if Complete(chunks[i]) then [] else [i])
    ensures AlreadyDone(chunks[..i + 1]) == AlreadyDone(chunks[..i]) +
      (if Complete(chunks[i]) then chunks[i].end - chunks[i].start else chunks[i].done)
    ensures Dones(chunks[..i + 1]) == Dones(chunks[..i]) + [chunks[i].done]
    ensures Ranges(chunks[..i + 1]) == Ranges(chunks[..i]) + (if Complete(chunks[i]) then [] else [RangeOf(chunks[i])])
  {
    assert chunks[..i + 1][..i] == chunks[..i];
  }

  /** The live counters a run starts from. */
  function Dones(chunks: seq<SavedChunk>): seq<nat> {
    seq(|chunks|, j requires 0 <= j < |chunks| => chunks[j].done)
  }

  function RangeOf(ch: SavedChunk): S.Range { S.Range(ch.start, ch.end - 1, ch.done, false) }

  /** The ranges to fetch. */
  function Ranges(chunks: seq<SavedChunk>): seq<S.Range> {
    if chunks == [] then []
    else
      var n := |chunks| - 1;
      Ranges(chunks[..n]) + (if Complete(chunks[n]) then [] else [RangeOf(chunks[n])])
  }

  lemma {:induction false} RangesAre(chunks: seq<SavedChunk>)
    ensures var r := Incomplete(chunks);
      |Ranges(chunks)| == |r| && forall i :: 0 <= i < |r| ==> Ranges(chunks)[i] == RangeOf(chunks[r[i]])
  {
    if chunks != [] { RangesAre(chunks[..|chunks| - 1]); }
  }

  /** The planning loop of `engine_run_download` for a server with ranges. */
  method PlanResume(chunks: seq<SavedChunk>)
    returns (ranges: seq<S.Range>, chunkSlotForRange: seq<nat>, downloaded: int, live: seq<nat>)
    requires |chunks| <= MAX_WORKERS
    ensures chunkSlotForRange == Incomplete(chunks) && |ranges| == |chunkSlotForRange|
    ensures forall i :: 0 <= i < |ranges| ==>
      var ch, plan := chunks[chunkSlotForRange[i]], PlanOf(Disk(chunks, []));
      && ranges[i].start == ch.start && ranges[i].start + ranges[i].resumeOffset == plan[i].lo
      && ranges[i].end + 1 == plan[i].hi && !ranges[i].wholeFile
    ensures downloaded == AlreadyDone(chunks)
    ensures live == Dones(chunks)
  {
    ranges, chunkSlotForRange, downloaded, live := [], [], 0, [];
    var i := 0;
    while i < |chunks| && |ranges| < MAX_WORKERS
      invariant 0 <= i <= |chunks| && |ranges| <= i
      invariant chunkSlotForRange == Incomplete(chunks[..i]) && ranges == Ranges(chunks[..i])
      invariant downloaded == AlreadyDone(chunks[..i])
      invariant live == Dones(chunks[..i])
    {
      var ch := chunks[i];
      OneMore(chunks, i);
      if Complete(ch) {
        downloaded := downloaded + (ch.end - ch.start);
      } else {
        ranges := ranges + [RangeOf(ch)];
        downloaded := downloaded + ch.done;
        chunkSlotForRange := chunkSlotForRange + [i];
      }
      live := live + [ch.done];
      i := i + 1;
    }
    assert chunks[..|chunks|] == chunks;
    RangesAre(chunks);
  }

  // ----- persisting a fresh plan -----

  /** The loop that stores a fresh plan, one row and one chunk at a time. `crashes` lists the rows a
      crash would leave before each insert and after the last. */
  method PersistPlan(ranges: seq<S.Range>)
    returns (rows: seq<SavedChunk>, chunks: seq<SavedChunk>, ghost crashes: seq<seq<SavedChunk>>)
    requires |ranges| <= MAX_WORKERS && forall i :: 0 <= i < |ranges| ==> ranges[i].end >= 0
    ensures rows == chunks && |rows| == |ranges|
    ensures forall i :: 0 <= i < |ranges| ==> rows[i] == SavedChunk(ranges[i].start, ranges[i].end + 1, 0)
    ensures |crashes| == |ranges| + 1 && forall m :: 0 <= m < |crashes| ==> crashes[m] == rows[..m]
  {
    rows, chunks, crashes := [], [], [[]];
    var i := 0;
    while i < |ranges| && i < MAX_WORKERS
      invariant 0 <= i <= |ranges| && |rows| == i && |crashes| == i + 1 && chunks == rows
      invariant forall j :: 0 <= j < i ==> rows[j] == SavedChunk(ranges[j].start, ranges[j].end + 1, 0)
      invariant forall m :: 0 <= m <= i ==> crashes[m] == rows[..m]
    {
      rows := rows + [SavedChunk(ranges[i].start, ranges[i].end + 1, 0)];
      chunks := chunks + [SavedChunk(ranges[i].start, ranges[i].end + 1, 0)];
      crashes := crashes + [rows];
      i := i + 1;
    }
  }

  // ----- starting and ending a pool run -----

  function PlanOf(d: Disk): seq<Interval> {
    var r := Incomplete(d.chunks);
    seq(|r|, i requires 0 <= i < |r| =>
      Interval(d.chunks[r[i]].start + d.chunks[r[i]].done, d.chunks[r[i]].end))
  }

  /** The state in which the engine hands the saved chunks to the worker pool. */
  function StartState(d: Disk, downloaded: nat): State
    requires |d.chunks| <= MAX_WORKERS
  {
    var r, plan := Incomplete(d.chunks), PlanOf(d);
    State(
      seq(|r|, i requires 0 <= i < |r| => Slot(plan[i].lo, plan[i].lo, plan[i].hi, true, false, i, r[i])),
      seq(|r|, i requires 0 <= i < |r| => Worker(i, plan[i].lo, plan[i].hi, 0, false, Streaming)),
      None,
      d.file,
      downloaded,
      seq(|d.chunks|, j requires 0 <= j < |d.chunks| => Chunk(d.chunks[j].start, d.chunks[j].end)),
      seq(|d.chunks|, j requires 0 <= j < |d.chunks| => d.chunks[j].done),
      seq(MAX_WORKERS, i requires 0 <= i < MAX_WORKERS => if i < |r| then r[i] as int else -1),
      seq(|d.chunks|, j requires 0 <= j < |d.chunks| => Row(d.chunks[j].start, d.chunks[j].end, d.chunks[j].done)))
  }

  /** The flush after `worker_pool_run`. */
  function Flushed(s: State): (d: Disk)
    requires |s.live| == |s.chunks|
  {
    Disk(seq(|s.chunks|, j requires 0 <= j < |s.chunks| => SavedChunk(s.chunks[j].start, s.chunks[j].end, s.live[j])),
         s.file)
  }

  /** The chunk rows of a download, as `db_load_chunks` returns them up to order. */
  function Persisted(s: State): (d: Disk) {
    Disk(seq(|s.rows|, j requires 0 <= j < |s.rows| => SavedChunk(s.rows[j].start, s.rows[j].end, s.rows[j].saved)),
         s.file)
  }

  // ----- soundness of what is left behind -----

  ghost predicate SoundChunk(content: seq<Byte>, file: seq<Byte>, ch: SavedChunk) {
    && |file| == |content|
    && ch.start <= ch.end <= |content|
    && ch.start + ch.done <= |content|
    && forall k :: ch.start <= k < ch.start + ch.done ==> file[k] == content[k]
  }

  ghost predicate InChunks(d: Disk, k: nat) {
    exists ch :: ch in d.chunks && ch.start <= k < ch.end
  }

  /** Every claimed byte is correct, and every byte of the file lies in some chunk. */
  ghost predicate Sound(content: seq<Byte>, d: Disk) {
    Honest(content, d) && forall k: nat :: k < |content| ==> InChunks(d, k)
  }

  /** Every claimed byte is correct. */
  ghost predicate Honest(content: seq<Byte>, d: Disk) {
    && |d.file| == |content|
    && |d.chunks| <= MAX_WORKERS
    && (forall ch :: ch in d.chunks ==> SoundChunk(content, d.file, ch))
  }

  /** The plan of a fresh download: the segmenter's ranges, nothing done. */
  ghost predicate FreshPlan(content: seq<Byte>, d: Disk) {
    && |d.file| == |content| >= 1
    && var p := S.Plan(|content|, S.ChooseWorkerCount(|content|));
       d.chunks == seq(|p|, i requires 0 <= i < |p| => SavedChunk(p[i].start, p[i].end + 1, 0))
  }

  lemma FreshIsSound(content: seq<Byte>, d: Disk)
    requires FreshPlan(content, d)
    ensures Sound(content, d)
    ensures Incomplete(d.chunks) != []
  {
    var total := |content|;
    var workers := S.ChooseWorkerCount(total);
    var p := S.Plan(total, workers);
    S.ChosenPlanFits(total);
    forall ch | ch in d.chunks ensures SoundChunk(content, d.file, ch) {
      var i :| 0 <= i < |p| && d.chunks[i] == ch;
      S.PlanIsContiguous(total, workers, i);
    }
    forall k: nat | k < total ensures InChunks(d, k) {
      S.PlanCovers(total, workers, k);
      var i :| 0 <= i < |p| && p[i].start <= k <= p[i].end;
      assert d.chunks[i] in d.chunks;
    }
    S.PlanIsContiguous(total, workers, 0);
    assert !Complete(d.chunks[0]);
    IncompleteFacts(d.chunks);
  }

  /** All chunks of a fresh plan are incomplete, so chunk and range indices agree. */
  lemma {:induction false} AllIncomplete(chunks: seq<SavedChunk>)
    requires forall j :: 0 <= j < |chunks| ==> !Complete(chunks[j])
    ensures |Incomplete(chunks)| == |chunks|
    ensures forall i :: 0 <= i < |chunks| ==> Incomplete(chunks)[i] == i
  {
    if chunks != [] { AllIncomplete(chunks[..|chunks| - 1]); }
  }

  /** How the engine configures a run from `d`. */
  ghost predicate Configured(c: Config, content: seq<Byte>, d: Disk) {
    && c.Valid() && c.content == content && c.plan == PlanOf(d)
    && (c.freshPlan ==> FreshPlan(content, d))
    && (c.splits ==> Splittable(d))
  }

  /** No chunk is finished, and no two meet: the table of a fresh plan, or one that was stopped
      before any chunk was done. The pool's slots and the chunks then have the same indices. */
  ghost predicate Splittable(d: Disk) {
    && (forall j :: 0 <= j < |d.chunks| ==> !Complete(d.chunks[j]))
    && (forall i, j :: 0 <= i < j < |d.chunks| ==>
          d.chunks[i].end <= d.chunks[j].start || d.chunks[j].end <= d.chunks[i].start)
  }

  /** A fresh plan may be split. */
  lemma FreshIsSplittable(content: seq<Byte>, d: Disk)
    requires FreshPlan(content, d)
    ensures Splittable(d) && forall j :: 0 <= j < |d.chunks| ==> d.chunks[j].done == 0
  {
    var total, workers := |content|, S.ChooseWorkerCount(|content|);
    forall j | 0 <= j < |d.chunks| ensures !Complete(d.chunks[j]) && d.chunks[j].done == 0 {
      S.PlanIsContiguous(total, workers, j);
    }
    forall i, j | 0 <= i < j < |d.chunks| ensures d.chunks[i].end <= d.chunks[j].start {
      S.PlanIsOrdered(total, workers, i, j);
    }
  }

  lemma StartShape(c: Config, content: seq<Byte>, d: Disk, downloaded: nat)
    requires Honest(content, d) && c.content == content && Incomplete(d.chunks) != []
    ensures Shape(c, StartState(d, downloaded))
  {
  }

  lemma StartSlot(c: Config, content: seq<Byte>, d: Disk, downloaded: nat, i: nat)
    requires Honest(content, d) && c.content == content && c.plan == PlanOf(d) && i < |c.plan|
    ensures var s, p := StartState(d, downloaded), Incomplete(d.chunks)[i];
      && s.progressSlots[i] == p < |s.chunks|
      && s.chunks[p].start + s.live[p] == c.plan[i].lo < c.plan[i].hi == s.chunks[p].end <= |content|
  {
    IncompleteFacts(d.chunks);
    assert d.chunks[Incomplete(d.chunks)[i]] in d.chunks;
  }

  lemma StartChunk(c: Config, content: seq<Byte>, d: Disk, downloaded: nat, j: nat)
    requires Honest(content, d) && c.content == content && j < |d.chunks|
    ensures var s := StartState(d, downloaded);
      && Good(c, s.file, s.chunks[j].start, s.chunks[j].start + s.live[j])
      && s.chunks[j].start <= s.chunks[j].end <= |content|
  {
    assert d.chunks[j] in d.chunks;
  }

  lemma StartSlots(c: Config, content: seq<Byte>, d: Disk, downloaded: nat)
    requires Honest(content, d) && c.content == content && c.plan == PlanOf(d)
    ensures var s := StartState(d, downloaded);
      forall i :: 0 <= i < |s.slots| ==>
        var p := s.slots[i].progress;
        && 0 <= p == s.progressSlots[i] < |s.chunks|
        && s.chunks[p].start + s.live[p] == c.plan[i].lo < c.plan[i].hi == s.chunks[p].end <= |content|
  {
    var s := StartState(d, downloaded);
    forall i | 0 <= i < |s.slots|
      ensures var p := s.slots[i].progress;
        && 0 <= p == s.progressSlots[i] < |s.chunks|
        && s.chunks[p].start + s.live[p] == c.plan[i].lo < c.plan[i].hi == s.chunks[p].end <= |content|
    {
      StartSlot(c, content, d, downloaded, i);
    }
  }

  lemma StartPool(c: Config, content: seq<Byte>, d: Disk, downloaded: nat)
    requires Honest(content, d) && Configured(c, content, d) && Incomplete(d.chunks) != []
    ensures InitPool(c, StartState(d, downloaded))
  {
    var s := StartState(d, downloaded);
    StartShape(c, content, d, downloaded);
    StartSlots(c, content, d, downloaded);
    forall j | 0 <= j < |s.chunks|
      ensures Good(c, s.file, s.chunks[j].start, s.chunks[j].start + s.live[j])
      ensures s.chunks[j].start <= s.chunks[j].end <= |content|
    {
      StartChunk(c, content, d, downloaded, j);
    }
    IncompleteFacts(d.chunks);
  }

  /** The state built from a disk that claims only correct bytes is an initial state of the worker pool. */
  lemma StartIsInit(c: Config, content: seq<Byte>, d: Disk, downloaded: nat)
    requires Honest(content, d) && Configured(c, content, d) && Incomplete(d.chunks) != []
    requires c.freshPlan ==> downloaded == 0
    ensures Init(c, StartState(d, downloaded))
  {
    StartPool(c, content, d, downloaded);
    if c.splits { AllIncomplete(d.chunks); }
    if c.freshPlan { FreshIsSplittable(content, d); }
  }

  /** The counters by range after the callback of the run's first split: it stores the new chunk's, if the table
      has room for one. */
  function CountersAfterSplit(s: State): seq<int>
    requires |s.progressSlots| == MAX_WORKERS
  {
    if |s.chunks| < MAX_WORKERS then s.progressSlots[|s.chunks| := |s.chunks|] else s.progressSlots
  }

  /** The counter the first split's tail gets is its own chunk's exactly when no chunk was finished before the
      run; else it is one no one stored. The callback stores it at the number of chunks, the pool, which has
      room for a slot, reads it at the number of slots. */
  lemma TailCounterIsItsOwn(d: Disk, downloaded: nat)
    requires |d.chunks| <= MAX_WORKERS && |Incomplete(d.chunks)| < MAX_WORKERS
    ensures var s := StartState(d, downloaded);
      CountersAfterSplit(s)[|s.slots|] == |s.chunks| <==> |Incomplete(d.chunks)| == |d.chunks|
    ensures var s := StartState(d, downloaded);
      |Incomplete(d.chunks)| < |d.chunks| ==> CountersAfterSplit(s)[|s.slots|] == -1
  {
  }

  // ----- one run -----

  /** A pool run the engine starts from `d`. */
  ghost predicate RunFrom(c: Config, content: seq<Byte>, d: Disk, run: seq<State>, labels: seq<Label>) {
    && Configured(c, content, d)
    && IsRun(c, run, labels)
    && |d.chunks| <= MAX_WORKERS && run[0] == StartState(d, run[0].downloaded)
  }

  ghost predicate AllExited(s: State) {
    forall w :: 0 <= w < |s.workers| ==> s.workers[w].pc.Exited?
  }

  /** A byte of a chunk table stays in it: the plan and what was done before tile the file. */
  lemma TablesKeepByte(c: Config, content: seq<Byte>, d: Disk, run: seq<State>, labels: seq<Label>, n: nat, k: nat)
    requires Sound(content, d) && RunFrom(c, content, d, run, labels)
    requires n < |run| && !BetweenStatements(run[n]) && k < |content|
    ensures InSomeChunk(run[n], k) && InSomeRow(run[n], k)
  {
    RunClaims(c, run, labels, n);
    assert InChunks(d, k);
    var ch :| ch in d.chunks && ch.start <= k < ch.end;
    var j :| 0 <= j < |d.chunks| && d.chunks[j] == ch;
    if c.splits {
      AllIncomplete(d.chunks);
      if k < ch.start + ch.done {
        DoneStaysInChunk(c, content, d, run, labels, n, j, k);
      } else {
        assert In(k, c.plan[j]);
        ByteInTables(c, run[n], k);
      }
    } else {
      ResumeKeepsTables(c, run, labels, n);
      assert run[n].chunks[j] == Chunk(ch.start, ch.end);
      assert run[n].rows[j].start == ch.start && run[n].rows[j].end == ch.end;
    }
  }

  /** What was done before the run stays in its chunk, even when the chunk's slot is split. */
  lemma DoneStaysInChunk(
    c: Config, content: seq<Byte>, d: Disk, run: seq<State>, labels: seq<Label>, n: nat, j: nat, k: nat)
    requires RunFrom(c, content, d, run, labels) && c.splits && n < |run| && j < |d.chunks|
    requires d.chunks[j].start <= k < d.chunks[j].start + d.chunks[j].done
    ensures InSomeChunk(run[n], k) && InSomeRow(run[n], k)
  {
    AllIncomplete(d.chunks);
    RunClaims(c, run, labels, n);
    RunKeepsStarts(c, run, labels, n);
    var s := run[n];
    assert run[0].slots[j].start == d.chunks[j].start + d.chunks[j].done;
    assert ChunkAt(c, s, j) && LinkAt(c, s, j) && SlotAt(c, s, j);
    assert s.chunks[j].start <= k < s.chunks[j].end && s.rows[j].start <= k < s.rows[j].end;
  }

  /** Stopping a run and flushing its counters leaves sound data behind. */
  lemma StopIsSound(c: Config, content: seq<Byte>, d: Disk, run: seq<State>, labels: seq<Label>, n: nat)
    requires Sound(content, d) && RunFrom(c, content, d, run, labels)
    requires n < |run| && !BetweenStatements(run[n])
    ensures |run[n].live| == |run[n].chunks| && Sound(content, Flushed(run[n]))
    ensures Sound(content, Persisted(run[n]))
  {
    RunClaims(c, run, labels, n);
    var s := run[n];
    var f, p := Flushed(s), Persisted(s);
    TableSize(c, content, d, run, labels, n);
    forall ch | ch in f.chunks ensures SoundChunk(content, f.file, ch) {
      var j :| 0 <= j < |s.chunks| && f.chunks[j] == ch;
      assert ChunkAt(c, s, j);
    }
    forall ch | ch in p.chunks ensures SoundChunk(content, p.file, ch) {
      var j :| 0 <= j < |s.rows| && p.chunks[j] == ch;
      assert ChunkAt(c, s, j);
    }
    forall k: nat | k < |content| ensures InChunks(f, k) && InChunks(p, k) {
      TablesKeepByte(c, content, d, run, labels, n, k);
      var i :| 0 <= i < |s.chunks| && s.chunks[i].start <= k < s.chunks[i].end;
      var j :| 0 <= j < |s.rows| && s.rows[j].start <= k < s.rows[j].end;
      assert f.chunks[i] in f.chunks && p.chunks[j] in p.chunks;
    }
  }

  lemma TableSize(c: Config, content: seq<Byte>, d: Disk, run: seq<State>, labels: seq<Label>, n: nat)
    requires Sound(content, d) && RunFrom(c, content, d, run, labels) && n < |run|
    ensures |run[n].chunks| <= MAX_WORKERS && |run[n].rows| <= MAX_WORKERS
  {
    RunClaims(c, run, labels, n);
    if !c.splits { ResumeKeepsTables(c, run, labels, n); }
  }

  /** A run in which every worker succeeds leaves exactly the server's bytes. */
  lemma SuccessIsComplete(c: Config, content: seq<Byte>, d: Disk, run: seq<State>, labels: seq<Label>)
    requires Sound(content, d) && RunFrom(c, content, d, run, labels)
    requires AllSucceeded(run[|run| - 1])
    ensures run[|run| - 1].file == content
  {
    var s := run[|run| - 1];
    RunSafe(c, run, labels, |run| - 1);
    IncompleteFacts(d.chunks);
    forall k | 0 <= k < |content| ensures s.file[k] == content[k] {
      assert InChunks(d, k);
      var ch :| ch in d.chunks && ch.start <= k < ch.end;
      var j :| 0 <= j < |d.chunks| && d.chunks[j] == ch;
      assert SoundChunk(content, d.file, ch);
      if k < ch.start + ch.done {
        RunKeepsGood(c, run, labels, |run| - 1, ch.start, ch.start + ch.done);
      } else {
        assert j in Incomplete(d.chunks);
        var i :| 0 <= i < |Incomplete(d.chunks)| && Incomplete(d.chunks)[i] == j;
        SuccessWritesPlan(c, run, labels, i, k);
      }
    }
  }

  /** Each interval begins where the one before ends. */
  ghost predicate InARow(plan: seq<Interval>) {
    forall i :: 0 <= i < |plan| ==> CutAt(plan, i)
  }

  ghost predicate CutAt(plan: seq<Interval>, i: nat)
    requires i < |plan|
  {
    plan[i].lo == if i == 0 then 0 else plan[i - 1].hi
  }

  lemma {:induction false} RowAddsUp(plan: seq<Interval>, i: nat)
    requires InARow(plan) && i <= |plan|
    ensures Sum(PlanLengths(plan[..i])) == if i == 0 then 0 else plan[i - 1].hi
  {
    if i > 0 {
      RowAddsUp(plan, i - 1);
      assert CutAt(plan, i - 1);
      assert PlanLengths(plan[..i]) == PlanLengths(plan[..i - 1]) + [plan[i - 1].hi - plan[i - 1].lo];
      SumAppend(PlanLengths(plan[..i - 1]), plan[i - 1].hi - plan[i - 1].lo);
    }
  }

  lemma FreshCut(content: seq<Byte>, d: Disk, i: nat)
    requires FreshPlan(content, d) && i < |PlanOf(d)|
    ensures PlanOf(d)[i].lo == if i == 0 then 0 else PlanOf(d)[i - 1].hi
    ensures i == |PlanOf(d)| - 1 ==> PlanOf(d)[i].hi == |content|
  {
    var total, workers := |content|, S.ChooseWorkerCount(|content|);
    FreshIsSplittable(content, d);
    AllIncomplete(d.chunks);
    var p := S.Plan(total, workers);
    S.PlanIsContiguous(total, workers, i);
    assert PlanOf(d)[i] == Interval(p[i].start, p[i].end + 1);
    if i > 0 {
      S.PlanIsContiguous(total, workers, i - 1);
      assert PlanOf(d)[i - 1] == Interval(p[i - 1].start, p[i - 1].end + 1);
    }
  }

  /** The planned lengths of a fresh download add up to its size. */
  lemma PlanAddsUp(content: seq<Byte>, d: Disk)
    requires FreshPlan(content, d)
    ensures Sum(PlanLengths(PlanOf(d))) == |content|
  {
    var plan := PlanOf(d);
    FreshIsSound(content, d);
    forall i | 0 <= i < |plan| ensures CutAt(plan, i) {
      FreshCut(content, d, i);
    }
    FreshCut(content, d, |plan| - 1);
    RowAddsUp(plan, |plan|);
    assert plan[..|plan|] == plan;
  }

  /** A fresh download that succeeds with atomic steals and small callbacks has counted exactly its
      size. */
  lemma FreshSuccessCountsSize(c: Config, content: seq<Byte>, d: Disk, run: seq<State>, labels: seq<Label>)
    requires FreshPlan(content, d) && RunFrom(c, content, d, run, labels) && c.freshPlan && Calm(c)
    requires AllSucceeded(run[|run| - 1])
    ensures run[|run| - 1].downloaded == |content|
  {
    CalmSuccessCountsExactly(c, run, labels);
    PlanAddsUp(content, d);
  }

  /** When nothing is incomplete the file is already the server's. */
  lemma NothingLeft(content: seq<Byte>, d: Disk)
    requires Sound(content, d) && Incomplete(d.chunks) == []
    ensures d.file == content
  {
    IncompleteFacts(d.chunks);
    forall k | 0 <= k < |content| ensures d.file[k] == content[k] {
      assert InChunks(d, k);
      var ch :| ch in d.chunks && ch.start <= k < ch.end;
      assert SoundChunk(content, d.file, ch);
      var j :| 0 <= j < |d.chunks| && d.chunks[j] == ch;
      assert Complete(ch);
    }
  }

  // ----- one range: no pool -----

  /** With one range the engine creates no pool. A pool of one slot comes to the same: its end
      never moves, no callback is clamped and nothing is stolen. */
  ghost predicate Solo(c: Config, s: State) {
    && |c.plan| == |s.slots| == |s.workers| == 1
    && s.slots[0].liveEnd == s.workers[0].reqEnd == c.plan[0].hi
    && s.workers[0].slot == 0 && !s.workers[0].truncated
    && var pc := s.workers[0].pc;
       && !pc.Chosen? && !pc.Reread? && !pc.Shrunk? && !pc.Appended? && !pc.Between?
       && (pc.Busiest? ==> pc.best == -1)
       && (pc.InCallback() ==> pc.writable == pc.total)
  }

  lemma OwnerSolo(c: Config, s: State, w: nat, a: Action)
    requires Safe(c, s) && Solo(c, s) && Can(c, s, w, a) && s.workers[w].pc.Owns()
    ensures Solo(c, Do(c, s, w, a))
  {
    assert WorkerAt(c, s, 0);
    if a.Deliver? { DeliverSolo(c, s, w, a.total); }
  }

  lemma DeliverSolo(c: Config, s: State, w: nat, n: nat)
    requires Safe(c, s) && Solo(c, s) && Can(c, s, w, Deliver(n))
    ensures Solo(c, Do(c, s, w, Deliver(n)))
  {
    assert WorkerAt(c, s, 0);
  }

  /** Once its worker is done with it, the only slot is exhausted and offers nothing. */
  lemma ThiefSolo(c: Config, s: State, w: nat, a: Action)
    requires Safe(c, s) && Solo(c, s) && Can(c, s, w, a) && !s.workers[w].pc.Owns()
    ensures Solo(c, Do(c, s, w, a))
  {
    assert SlotAt(c, s, 0);
  }

  lemma {:induction false} SoloRun(c: Config, run: seq<State>, labels: seq<Label>, n: nat)
    requires c.Valid() && IsRun(c, run, labels) && n < |run| && |c.plan| == 1
    ensures Solo(c, run[n])
  {
    if n > 0 {
      SoloRun(c, run, labels, n - 1);
      RunSafe(c, run, labels, n - 1);
      var s, l := run[n - 1], labels[n - 1];
      assert Next(c, s, l, run[n]);
      if l.Act? {
        if s.workers[l.w].pc.Owns() { OwnerSolo(c, s, l.w, l.action); } else { ThiefSolo(c, s, l.w, l.action); }
      }
    }
  }

  /** The exact-byte test of a pool of one is the test made without a pool. */
  lemma SoloTest(c: Config, s: State, httpOk: bool)
    requires Safe(c, s) && Solo(c, s) && Can(c, s, 0, Test(httpOk))
    ensures var k := s.workers[0];
      Do(c, s, 0, Test(httpOk)).workers[0].pc == Passed <==>
        OneShotSucceeds(k.base, k.reqEnd - 1, k.bytesDone, httpOk, k.pc.curlOk)
  {
    assert SlotAt(c, s, 0) && WorkerAt(c, s, 0);
  }

  // ----- the single-connection fallback -----

  /** The success test of a request made without a pool. */
  predicate OneShotSucceeds(start: nat, end: int, bytesDone: nat, httpOk: bool, curlOk: bool) {
    var expected := if end >= start then end - start + 1 else 0;
    httpOk && bytesDone == expected && curlOk
  }

  /** The fallback asks for the whole file but tests against the range 0..0: with curl
      reporting success only for a complete body, it succeeds exactly for one-byte files. */
  lemma FallbackSucceedsOnlyForOneByte(total: nat, bytesDone: nat, curlOk: bool)
    requires curlOk ==> bytesDone == total
    ensures OneShotSucceeds(0, 0, bytesDone, true, curlOk) <==> curlOk && total == 1
  {
  }

  /** The fallback is made only after more than one range, and so never makes the call succeed: two
      unfinished chunks with different starts mean at least two bytes. */
  lemma FallbackNeverSucceeds(
    content: seq<Byte>, d: Disk, i: nat, j: nat, bytesDone: nat, httpOk: bool, curlOk: bool)
    requires Sound(content, d) && i < |d.chunks| && j < |d.chunks| && d.chunks[i].start != d.chunks[j].start
    requires !Complete(d.chunks[i]) && !Complete(d.chunks[j])
    requires curlOk ==> bytesDone == |content|
    ensures !OneShotSucceeds(0, 0, bytesDone, httpOk, curlOk)
  {
    assert d.chunks[i] in d.chunks && d.chunks[j] in d.chunks;
  }

  /** A fallback that delivered `m` bytes spoils nothing. */
  lemma FallbackKeepsSound(content: seq<Byte>, d: Disk, m: nat)
    requires Sound(content, d) && m <= |content|
    ensures Sound(content, d.(file := WriteAt(d.file, 0, content[..m])))
  {
    var d' := d.(file := WriteAt(d.file, 0, content[..m]));
    forall ch | ch in d'.chunks ensures SoundChunk(content, d'.file, ch) {
      assert SoundChunk(content, d.file, ch);
    }
    forall k: nat | k < |content| ensures InChunks(d', k) {
      assert InChunks(d, k);
    }
  }

  // ----- any number of runs -----

  datatype Progress = Nothing | Kept(disk: Disk) | Completed(file: seq<Byte>)

  /** A crash among the inserts that store a fresh plan leaves its first `m` rows, in whatever order
      the query returns them; with no row the download starts over. */
  ghost predicate CrashedInPlanning(d: Disk, m: nat, after: Progress) {
    && m <= |d.chunks|
    && if m == 0 then after.Nothing?
       else after.Kept? && after.disk.file == d.file && multiset(after.disk.chunks) == multiset(d.chunks[..m])
  }

  /** Such a crash leaves data that covers the file, or none, exactly when it falls before the first
      insert or after the last. */
  lemma PlanningCrashExact(content: seq<Byte>, d: Disk, m: nat, after: Progress)
    requires FreshPlan(content, d) && CrashedInPlanning(d, m, after)
    ensures Justified(content, after) <==> m == 0 || m == |d.chunks|
  {
    FreshIsSound(content, d);
    if m == |d.chunks| {
      assert d.chunks[..m] == d.chunks;
      if m > 0 { ReorderedIsSound(content, d, after.disk.chunks); }
    } else if m > 0 {
      FirstRowsMissTheEnd(content, d, m, after.disk);
    }
  }

  lemma FirstRowsMissTheEnd(content: seq<Byte>, d: Disk, m: nat, after: Disk)
    requires FreshPlan(content, d) && m < |d.chunks| && multiset(after.chunks) == multiset(d.chunks[..m])
    ensures !InChunks(after, |content| - 1)
  {
    var total, workers := |content|, S.ChooseWorkerCount(|content|);
    forall ch | ch in after.chunks ensures ch.end <= total - 1 {
      assert ch in multiset(after.chunks);
      assert ch in d.chunks[..m];
      var i :| 0 <= i < m && d.chunks[i] == ch;
      S.PlanIsOrdered(total, workers, i, m);
      S.PlanIsContiguous(total, workers, m);
    }
  }

  /** One call of `engine_run_download`, or a crash during it, on a server with ranges whose
      content does not change. A crash may fall anywhere except between the two statements
      that persist a split, and between the first and the last insert of a fresh plan. From a table
      that is not `Splittable` the run is taken without splits: a thief that has chosen a victim stops
      there, with the mutex held. */
  ghost predicate Attempt(content: seq<Byte>, before: Progress, after: Progress) {
    exists d: Disk ::
      && (if before.Kept? then d == before.disk else before.Nothing? && FreshPlan(content, d))
      && Ends(content, before.Nothing?, d, after)
  }

  ghost predicate Ends(content: seq<Byte>, isFresh: bool, d: Disk, after: Progress) {
    || after.Nothing?                       // verification failed or the file is missing
    || after == Kept(d)                     // the request failed before any transfer
    || (isFresh && exists m: nat :: CrashedInPlanning(d, m, after) && (m == 0 || m == |d.chunks|))
    || (Incomplete(d.chunks) == [] && after == Completed(d.file))
    || (exists c, run, labels :: RunEnds(content, isFresh, d, c, run, labels, after))
  }

  ghost predicate RunEnds(
    content: seq<Byte>, isFresh: bool, d: Disk, c: Config, run: seq<State>, labels: seq<Label>, after: Progress)
  {
    && RunFrom(c, content, d, run, labels) && c.freshPlan == isFresh && (c.splits <==> Splittable(d))
    && var s := run[|run| - 1];
       || (AllSucceeded(s) && after == Completed(s.file))
       || (AllExited(s) && after.Kept? && StoppedAs(content, s, after.disk))
       || (!BetweenStatements(s) && after.Kept? && CrashedAs(s, after.disk))
  }

  /** Flushed, after a fallback that may have delivered some bytes from the front. */
  ghost predicate StoppedAs(content: seq<Byte>, s: State, d: Disk) {
    |s.live| == |s.chunks| &&
    exists m: nat :: m <= |content| && d == Flushed(s).(file := WriteAt(s.file, 0, content[..m]))
  }

  /** The fallback may have delivered any number of bytes from the front. */
  lemma FallbackMayWrite(content: seq<Byte>, s: State, m: nat)
    requires |s.live| == |s.chunks| && |s.file| == |content| && m <= |content|
    ensures exists d: Disk :: StoppedAs(content, s, d) && d.file == content[..m] + s.file[m..]
  {
    var d := Flushed(s).(file := WriteAt(s.file, 0, content[..m]));
    assert StoppedAs(content, s, d);
    assert d.file == content[..m] + s.file[m..];
  }

  /** Reloaded from the rows, in whatever order the query returns them. */
  ghost predicate CrashedAs(s: State, d: Disk) {
    d.file == s.file && multiset(d.chunks) == multiset(Persisted(s).chunks)
  }

  ghost predicate Justified(content: seq<Byte>, p: Progress) {
    match p
    case Nothing => true
    case Kept(d) => Sound(content, d)
    case Completed(file) => file == content
  }

  lemma ReorderedIsSound(content: seq<Byte>, d: Disk, chunks: seq<SavedChunk>)
    requires Sound(content, d) && multiset(chunks) == multiset(d.chunks)
    ensures Sound(content, d.(chunks := chunks))
  {
    forall ch ensures ch in chunks <==> ch in d.chunks {
      assert ch in multiset(chunks) <==> ch in chunks;
      assert ch in multiset(d.chunks) <==> ch in d.chunks;
    }
    assert |multiset(chunks)| == |chunks| && |multiset(d.chunks)| == |d.chunks|;
    forall k: nat | k < |content| ensures InChunks(d.(chunks := chunks), k) {
      assert InChunks(d, k);
    }
  }

  lemma RunEndsJustified(
    content: seq<Byte>, isFresh: bool, d: Disk, c: Config, run: seq<State>, labels: seq<Label>, after: Progress)
    requires Sound(content, d) && RunEnds(content, isFresh, d, c, run, labels, after)
    ensures Justified(content, after)
  {
    var s := run[|run| - 1];
    if after.Completed? {
      SuccessIsComplete(c, content, d, run, labels);
    } else if AllExited(s) && StoppedAs(content, s, after.disk) {
      StopIsSound(c, content, d, run, labels, |run| - 1);
      var m: nat :| m <= |content| && after.disk == Flushed(s).(file := WriteAt(s.file, 0, content[..m]));
      FallbackKeepsSound(content, Flushed(s), m);
    } else {
      StopIsSound(c, content, d, run, labels, |run| - 1);
      ReorderedIsSound(content, Persisted(s), after.disk.chunks);
    }
  }

  lemma AttemptIsJustified(content: seq<Byte>, before: Progress, after: Progress)
    requires Justified(content, before) && Attempt(content, before, after)
    ensures Justified(content, after)
  {
    var d: Disk :|
      && (if before.Kept? then d == before.disk else before.Nothing? && FreshPlan(content, d))
      && Ends(content, before.Nothing?, d, after);
    if before.Nothing? { FreshIsSound(content, d); }
    if after == Nothing || after == Kept(d) {
    } else if before.Nothing? && exists m: nat :: CrashedInPlanning(d, m, after) && (m == 0 || m == |d.chunks|) {
      var m: nat :| CrashedInPlanning(d, m, after) && (m == 0 || m == |d.chunks|);
      PlanningCrashExact(content, d, m, after);
    } else if Incomplete(d.chunks) == [] && after == Completed(d.file) {
      NothingLeft(content, d);
    } else {
      var c, run, labels :| RunEnds(content, before.Nothing?, d, c, run, labels, after);
      RunEndsJustified(content, before.Nothing?, d, c, run, labels, after);
    }
  }

  /** Over any number of attempts, stops and crashes: saved data never claims a byte that is
      not correct on disk and always covers the file, and a completed download is the
      server's content. See `Attempt` for what an attempt leaves out. */
  lemma {:induction false} HistoryIsJustified(content: seq<Byte>, history: seq<Progress>, n: nat)
    requires n < |history| && history[0] == Nothing
    requires forall i :: 0 <= i < |history| - 1 ==> Attempt(content, history[i], history[i + 1])
    ensures Justified(content, history[n])
  {
    if n > 0 {
      HistoryIsJustified(content, history, n - 1);
      AttemptIsJustified(content, history[n - 1], history[n]);
    }
  }
}
