/** The segmented transfer engine as a step system.

    Every worker thread runs the loop of `worker_thread_function`; each step below is
    one atomic access of that code to shared memory. Write callbacks take no lock, so
    their steps interleave freely with the steps of a thief that holds the pool mutex.

    Ends are exclusive throughout: a source range `start`..`end` is `[start, end + 1)`.
 */
module Transfer {
  import opened Common

  const MAX_WORKERS: nat := 8
  type Byte = bv8

  /** What does not change during one pool run.
      - `content`: the bytes the server holds
      - `plan`: the intervals the run was asked to fetch
      - `minSteal`: least remainder worth stealing
      - `maxCallback`: most bytes one write callback delivers
      - `atomicSteals`: whether only the mutex holder moves while the mutex is held
      - `splits`: the pool may split its slots; every chunk of the table is then in the plan
      - `freshPlan`: the chunk table was built for this run, so nothing of it is done */
  datatype Config = Config(
    content: seq<Byte>, plan: seq<Interval>,
    minSteal: nat, maxCallback: nat, atomicSteals: bool, splits: bool, freshPlan: bool)
  {
    ghost predicate Valid() {
      |content| < TWO64 && 1 <= maxCallback <= minSteal && 2 <= minSteal && (freshPlan ==> splits)
    }
  }

  datatype Interval = Interval(lo: nat, hi: nat)

  /** A pool slot. `owner` is the worker that last took it, `progress` the index of the
      chunk counter its callbacks bump (-1 when the slot has none). */
  datatype Slot = Slot(
    start: nat, writePos: nat, liveEnd: nat, claimed: bool, exhausted: bool,
    owner: nat, progress: int)

  datatype Chunk = Chunk(start: nat, end: nat)

  /** A row of the `chunks` table, keyed by `start`. */
  datatype Row = Row(start: nat, end: nat, saved: nat)

  /** Program counter of a worker thread. `total` is what curl handed to the callback,
      `writable` what is left of it after clamping to `live_end`. */
  datatype Pc =
    | Streaming
    | Loaded(total: nat, writable: nat)
    | Written(total: nat, writable: nat)
    | BytesCounted(total: nat, writable: nat)
    | PosCounted(total: nat, writable: nat)
    | TotalCounted(total: nat, writable: nat)
    | Ended(curlOk: bool)
    | Passed
    | Idle
    | Orphans(next: nat)
    | Busiest(next: nat, best: int, remaining: nat)
    | Chosen(victim: nat)
    | Reread(victim: nat, wp: nat)
    | Shrunk(victim: nat, split: nat, le: nat)
    | Appended(victim: nat, split: nat, le: nat)
    | Between(victim: nat, split: nat, le: nat)
    | Exited(ok: bool)
  {
    /** The pool mutex is held. */
    predicate Holding() {
      Orphans? || Busiest? || Chosen? || Reread? || Shrunk? || Appended? || Between?
    }

    /** The worker still answers for the slot it points at. */
    predicate Owns() {
      Streaming? || Loaded? || Written? || BytesCounted? || PosCounted? || TotalCounted? ||
      Ended? || Passed? || Appended? || Between? || this == Exited(false)
    }

    /** A callback is past its clamp and has not returned. */
    predicate InCallback() {
      Loaded? || Written? || BytesCounted? || PosCounted? || TotalCounted?
    }
  }

  /** Thread context; the current request asked for `[base, reqEnd)`. */
  datatype Worker = Worker(
    slot: nat, base: nat, reqEnd: nat, bytesDone: nat, truncated: bool, pc: Pc)
  {
    /** Where `write_pos` of the worker's slot stands. */
    function Position(): int {
      base + bytesDone - (if pc.BytesCounted? then pc.writable else 0)
    }

    /** Where `write_pos` will stand once the callback in flight has finished. */
    function Reach(): int {
      base + bytesDone + (if pc.Loaded? || pc.Written? then pc.writable else 0)
    }
  }

  datatype State = State(
    slots: seq<Slot>,
    workers: seq<Worker>,
    mutex: Option<nat>,
    file: seq<Byte>,
    downloaded: nat,
    chunks: seq<Chunk>,
    live: seq<nat>,
    progressSlots: seq<int>,
    rows: seq<Row>)

  datatype Action =
    | Deliver(total: nat)          // curl calls the callback; live_end is loaded
    | WriteFile                    // pwrite succeeds
    | WriteFails(prefix: nat)      // pwrite stores only a prefix and the callback gives up
    | CountBytes                   // bytes_done += writable
    | CountPos                     // write_pos += writable
    | CountTotal                   // download_bytes_done += writable
    | CountChunk                   // chunk_progress_slot += writable; the callback returns
    | Stop(curlOk: bool)           // curl_easy_perform returns
    | Test(httpOk: bool)           // the exact-byte test
    | MarkDone
    | Lock
    | ScanOrphan
    | ScanBusiest
    | RereadPos
    | ShrinkVictim
    | AppendSlot
    | MirrorVictim
    | MirrorTail

  /** A step of worker `w`, or of the daemon thread saving the counter value `v` of chunk `j`. */
  datatype Label = Act(w: nat, action: Action) | Save(j: nat, v: nat)

  // ----- file and split arithmetic -----

  function WriteAt(file: seq<Byte>, off: nat, data: seq<Byte>): (r: seq<Byte>)
    ensures |r| == |file|
  {
    seq(|file|, i requires 0 <= i < |file| =>
      if off <= i < off + |data| then data[i - off] else file[i])
  }

  /** `wp + (le - wp) / 2` in unsigned 64-bit arithmetic. */
  function SplitPoint(wp: nat, le: nat): nat {
    (wp + ((le - wp) % TWO64) / 2) % TWO64
  }

  // ----- the chunk table and its rows -----

  /** Index of the first chunk that starts at `start`, or the length of the table. */
  function FirstAt(chunks: seq<Chunk>, start: nat): (j: nat)
    ensures j <= |chunks|
    ensures j < |chunks| ==> chunks[j].start == start
    ensures forall i :: 0 <= i < j ==> chunks[i].start != start
  {
    if chunks == [] then 0
    else if chunks[0].start == start then 0
    else
      var r := FirstAt(chunks[1..], start);
      assert forall i :: 1 <= i <= r ==> chunks[i] == chunks[1..][i - 1] || i == r;
      1 + r
  }

  /** The loop of `on_rebalance_split` that shrinks the victim. */
  function ShrinkChunk(chunks: seq<Chunk>, start: nat, end: nat): (r: seq<Chunk>)
    ensures |r| == |chunks|
  {
    var j := FirstAt(chunks, start);
    if j < |chunks| then chunks[j := Chunk(start, end)] else chunks
  }

  /** UPDATE chunks SET range_end WHERE range_start. */
  function UpdateRange(rows: seq<Row>, start: nat, end: nat): (r: seq<Row>)
    ensures |r| == |rows|
  {
    seq(|rows|, i requires 0 <= i < |rows| =>
      if rows[i].start == start then rows[i].(end := end) else rows[i])
  }

  /** UPDATE chunks SET bytes_done WHERE range_start. */
  function UpdateProgress(rows: seq<Row>, start: nat, saved: nat): (r: seq<Row>)
    ensures |r| == |rows|
  {
    seq(|rows|, i requires 0 <= i < |rows| =>
      if rows[i].start == start then rows[i].(saved := saved) else rows[i])
  }

  // ----- well-formed states -----

  predicate PcInRange(s: State, pc: Pc) {
    match pc
    case Busiest(_, best, _) => -1 <= best < |s.slots|
    case Chosen(v) => v < |s.slots| < MAX_WORKERS
    case Reread(v, _) => v < |s.slots| < MAX_WORKERS
    case Shrunk(v, _, _) => v < |s.slots| < MAX_WORKERS
    case Appended(v, _, _) => v < |s.slots|
    case Between(v, _, _) => v < |s.slots|
    case _ => true
  }

  ghost predicate Shape(c: Config, s: State) {
    && 1 <= |s.slots| <= MAX_WORKERS
    && |s.progressSlots| == MAX_WORKERS
    && (forall i :: 0 <= i < MAX_WORKERS ==> -1 <= s.progressSlots[i] < |s.chunks|)
    && |s.live| == |s.chunks| == |s.rows|
    && |s.file| == |c.content|
    && (forall w :: 0 <= w < |s.workers| ==> s.workers[w].slot < |s.slots| && PcInRange(s, s.workers[w].pc))
    && (forall i :: 0 <= i < |s.slots| ==> s.slots[i].owner < |s.workers| && -1 <= s.slots[i].progress < |s.chunks|)
    && (forall w :: 0 <= w < |s.workers| && s.workers[w].pc.Holding() ==> s.mutex == Some(w))
    && (s.mutex.Some? ==> s.mutex.value < |s.workers| && s.workers[s.mutex.value].pc.Holding())
  }

  // ----- steps -----

  ghost predicate Can(c: Config, s: State, w: nat, a: Action)
    requires Shape(c, s)
  {
    w < |s.workers| &&
    (c.atomicSteals ==> s.mutex.None? || s.mutex.value == w) &&
    var k := s.workers[w];
    match a
    case Deliver(n) => k.pc.Streaming? && 1 <= n <= c.maxCallback && k.base + k.bytesDone + n <= k.reqEnd
    case WriteFile => k.pc.Loaded? && k.Reach() <= |c.content|
    case WriteFails(p) => k.pc.Loaded? && p <= k.pc.writable && k.Reach() <= |c.content|
    case CountBytes => k.pc.Written?
    case CountPos => k.pc.BytesCounted?
    case CountTotal => k.pc.PosCounted?
    case CountChunk => k.pc.TotalCounted?
    case Stop(_) => k.pc.Streaming?
    case Test(_) => k.pc.Ended?
    case MarkDone => k.pc.Passed? && s.mutex.None?
    case Lock => k.pc.Idle? && s.mutex.None?
    case ScanOrphan => k.pc.Orphans?
    case ScanBusiest => k.pc.Busiest?
    case RereadPos => k.pc.Chosen? && c.splits
    case ShrinkVictim => k.pc.Reread?
    case AppendSlot => k.pc.Shrunk?
    case MirrorVictim => k.pc.Appended?
    case MirrorTail => k.pc.Between? && |s.chunks| < MAX_WORKERS
  }

  ghost function SetWorker(s: State, w: nat, k: Worker): State
    requires w < |s.workers|
  {
    s.(workers := s.workers[w := k])
  }

  ghost function SetPc(s: State, w: nat, pc: Pc): State
    requires w < |s.workers|
  {
    SetWorker(s, w, s.workers[w].(pc := pc))
  }

  /** The callback up to its clamp: it gives up at or past `live_end`, otherwise it keeps
      what fits and notes a truncation. */
  ghost function DoDeliver(c: Config, s: State, w: nat, n: nat): State
    requires Shape(c, s) && Can(c, s, w, Deliver(n))
  {
    var k := s.workers[w];
    var offset := k.base + k.bytesDone;
    var liveEnd := s.slots[k.slot].liveEnd;
    if offset >= liveEnd then SetWorker(s, w, k.(truncated := true, pc := Ended(false)))
    else if n > liveEnd - offset then
      SetWorker(s, w, k.(truncated := true, pc := Loaded(n, liveEnd - offset)))
    else SetPc(s, w, Loaded(n, n))
  }

  ghost function DoWrite(c: Config, s: State, w: nat, n: nat, next: Pc): State
    requires Shape(c, s) && w < |s.workers|
    requires s.workers[w].base + s.workers[w].bytesDone + n <= |c.content|
  {
    var k := s.workers[w];
    var offset := k.base + k.bytesDone;
    SetPc(s, w, next).(file := WriteAt(s.file, offset, c.content[offset..offset + n]))
  }

  ghost function DoTest(c: Config, s: State, w: nat, httpOk: bool): State
    requires Shape(c, s) && Can(c, s, w, Test(httpOk))
  {
    var k := s.workers[w];
    var liveEnd := s.slots[k.slot].liveEnd;
    var expected := if liveEnd > k.base then liveEnd - k.base else 0;
    var ok := httpOk && k.bytesDone == expected && (k.pc.curlOk || k.truncated);
    SetPc(s, w, if ok then Passed else Exited(false))
  }

  ghost function DoScanOrphan(c: Config, s: State, w: nat): State
    requires Shape(c, s) && Can(c, s, w, ScanOrphan)
  {
    var k := s.workers[w];
    var i := k.pc.next;
    if i >= |s.slots| then SetPc(s, w, Busiest(0, -1, 0))
    else
      var t := s.slots[i];
      if !t.exhausted && !t.claimed then
        SetWorker(s, w, Worker(i, t.writePos, t.liveEnd, 0, false, Streaming))
        .(slots := s.slots[i := t.(claimed := true, owner := w)], mutex := None)
      else SetPc(s, w, Orphans(i + 1))
  }

  ghost function DoScanBusiest(c: Config, s: State, w: nat): State
    requires Shape(c, s) && Can(c, s, w, ScanBusiest)
  {
    var Busiest(i, best, remaining) := s.workers[w].pc;
    if i >= |s.slots| then
      if best == -1 || remaining < c.minSteal || |s.slots| >= MAX_WORKERS then
        SetPc(s, w, Exited(true)).(mutex := None)
      else SetPc(s, w, Chosen(best))
    else
      var t := s.slots[i];
      var r := if t.liveEnd > t.writePos then t.liveEnd - t.writePos else 0;
      if !t.exhausted && t.claimed && r > remaining then SetPc(s, w, Busiest(i + 1, i, r))
      else SetPc(s, w, Busiest(i + 1, best, remaining))
  }

  ghost function DoShrink(c: Config, s: State, w: nat): State
    requires Shape(c, s) && Can(c, s, w, ShrinkVictim)
  {
    var Reread(v, wp) := s.workers[w].pc;
    var le := s.slots[v].liveEnd;
    var split := SplitPoint(wp, le);
    SetPc(s, w, Shrunk(v, split, le)).(slots := s.slots[v := s.slots[v].(liveEnd := split)])
  }

  ghost function DoAppend(c: Config, s: State, w: nat): State
    requires Shape(c, s) && Can(c, s, w, AppendSlot)
  {
    var Shrunk(v, split, le) := s.workers[w].pc;
    SetWorker(s, w, Worker(|s.slots|, split, le, 0, false, Appended(v, split, le)))
    .(slots := s.slots + [Slot(split, split, le, true, false, w, -1)])
  }

  ghost function DoMirrorVictim(c: Config, s: State, w: nat): State
    requires Shape(c, s) && Can(c, s, w, MirrorVictim)
  {
    var Appended(v, split, le) := s.workers[w].pc;
    var at := s.slots[v].start;
    SetPc(s, w, Between(v, split, le)).(
      chunks := ShrinkChunk(s.chunks, at, split),
      rows := if FirstAt(s.chunks, at) < |s.chunks| then UpdateRange(s.rows, at, split) else s.rows)
  }

  ghost function DoMirrorTail(c: Config, s: State, w: nat): State
    requires Shape(c, s) && Can(c, s, w, MirrorTail)
  {
    var Between(v, split, le) := s.workers[w].pc;
    var idx := |s.chunks|;
    var ps := s.progressSlots[idx := idx];
    var i := s.workers[w].slot;
    SetPc(s, w, Streaming).(
      mutex := None,
      chunks := s.chunks + [Chunk(split, le)],
      live := s.live + [0],
      rows := s.rows + [Row(split, le, 0)],
      progressSlots := ps,
      slots := s.slots[i := s.slots[i].(progress := ps[i])])
  }

  ghost function Do(c: Config, s: State, w: nat, a: Action): State
    requires Shape(c, s) && Can(c, s, w, a)
  {
    var k := s.workers[w];
    match a
    case Deliver(n) => DoDeliver(c, s, w, n)
    case WriteFile => DoWrite(c, s, w, k.pc.writable, Written(k.pc.total, k.pc.writable))
    case WriteFails(p) => DoWrite(c, s, w, p, Ended(false))
    case CountBytes =>
      SetWorker(s, w, k.(bytesDone := k.bytesDone + k.pc.writable, pc := BytesCounted(k.pc.total, k.pc.writable)))
    case CountPos =>
      var t := s.slots[k.slot];
      SetPc(s, w, PosCounted(k.pc.total, k.pc.writable)).(
        slots := s.slots[k.slot := t.(writePos := t.writePos + k.pc.writable)])
    case CountTotal =>
      SetPc(s, w, TotalCounted(k.pc.total, k.pc.writable)).(downloaded := s.downloaded + k.pc.writable)
    case CountChunk =>
      var p := s.slots[k.slot].progress;
      var next := if k.pc.writable < k.pc.total then Ended(false) else Streaming;
      SetPc(s, w, next).(live := if p < 0 then s.live else s.live[p := s.live[p] + k.pc.writable])
    case Stop(curlOk) => SetPc(s, w, Ended(curlOk))
    case Test(httpOk) => DoTest(c, s, w, httpOk)
    case MarkDone =>
      SetPc(s, w, Idle).(slots := s.slots[k.slot := s.slots[k.slot].(exhausted := true, claimed := false)])
    case Lock => SetPc(s, w, Orphans(0)).(mutex := Some(w))
    case ScanOrphan => DoScanOrphan(c, s, w)
    case ScanBusiest => DoScanBusiest(c, s, w)
    case RereadPos => SetPc(s, w, Reread(k.pc.victim, s.slots[k.pc.victim].writePos))
    case ShrinkVictim => DoShrink(c, s, w)
    case AppendSlot => DoAppend(c, s, w)
    case MirrorVictim => DoMirrorVictim(c, s, w)
    case MirrorTail => DoMirrorTail(c, s, w)
  }

  /** The daemon thread stores in the database a counter value it read some time ago. */
  ghost function DoSave(s: State, j: nat, v: nat): State
    requires j < |s.chunks|
  {
    s.(rows := UpdateProgress(s.rows, s.chunks[j].start, v))
  }

  ghost predicate Next(c: Config, s: State, l: Label, s': State) {
    Shape(c, s) &&
    match l
    case Act(w, a) => Can(c, s, w, a) && s' == Do(c, s, w, a)
    case Save(j, v) => j < |s.chunks| && j < |s.live| && v <= s.live[j] && s' == DoSave(s, j, v)
  }

  // ----- initial states and runs -----

  ghost predicate Good(c: Config, file: seq<Byte>, lo: nat, hi: int) {
    |file| == |c.content| && hi <= |file| && forall k :: lo <= k < hi ==> file[k] == c.content[k]
  }

  /** The state in which `worker_pool_run` starts its threads: one slot per planned
      interval, each beginning where its chunk's saved prefix ends. */
  ghost predicate Init(c: Config, s: State) {
    InitPool(c, s) && (c.splits ==> InitSplits(s)) && (c.freshPlan ==> InitFresh(s))
  }

  ghost predicate InitPool(c: Config, s: State) {
    && Shape(c, s)
    && s.mutex.None?
    && |s.workers| == |s.slots| == |c.plan|
    && |s.chunks| <= MAX_WORKERS
    && (forall i :: 0 <= i < |s.slots| ==>
          var p := s.slots[i].progress;
          && 0 <= p == s.progressSlots[i]
          && s.chunks[p].start + s.live[p] == c.plan[i].lo < c.plan[i].hi == s.chunks[p].end <= |c.content|
          && s.slots[i] == Slot(c.plan[i].lo, c.plan[i].lo, c.plan[i].hi, true, false, i, p)
          && s.workers[i] == Worker(i, c.plan[i].lo, c.plan[i].hi, 0, false, Streaming))
    && (forall i, j :: 0 <= i < j < |s.slots| ==> s.slots[i].progress != s.slots[j].progress)
    && (forall j :: 0 <= j < |s.chunks| ==>
          && Good(c, s.file, s.chunks[j].start, s.chunks[j].start + s.live[j])
          && s.chunks[j].start <= s.chunks[j].end <= |c.content|
          && s.rows[j].start == s.chunks[j].start && s.rows[j].end == s.chunks[j].end
          && s.rows[j].saved <= s.live[j])
  }

  /** A plan that may be split: chunk `j` belongs to slot `j`, and no two chunks meet. */
  ghost predicate InitSplits(s: State) {
    && |s.chunks| == |s.slots|
    && (forall i, j :: 0 <= i < j < |s.chunks| ==>
          s.chunks[i].end <= s.chunks[j].start || s.chunks[j].end <= s.chunks[i].start)
    && (forall j :: 0 <= j < |s.slots| ==> s.slots[j].progress == j)
  }

  /** A fresh plan: nothing is done. */
  ghost predicate InitFresh(s: State) {
    s.downloaded == 0 && forall j :: 0 <= j < |s.live| ==> s.live[j] == 0
  }

  /** `run[0]` is initial and `labels[i]` leads from `run[i]` to `run[i + 1]`. */
  ghost predicate IsRun(c: Config, run: seq<State>, labels: seq<Label>) {
    && |run| == |labels| + 1
    && Init(c, run[0])
    && forall i :: 0 <= i < |labels| ==> Next(c, run[i], labels[i], run[i + 1])
  }

  ghost predicate AllSucceeded(s: State) {
    forall w :: 0 <= w < |s.workers| ==> s.workers[w].pc == Exited(true)
  }
}
