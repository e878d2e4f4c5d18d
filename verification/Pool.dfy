/** The functions of src/engine/worker_pool.c and the split callback of src/engine/engine_runner.c in
    their own form. Each method is one call of the source made without interruption, and is shown to
    do what the same worker's steps of the step system do one after the other. */
module Pool {
  import opened Common
  import opened Transfer
  import opened TransferSafety
  import opened TransferClaims
  import S = Segmenter

  // ----- steps of one worker in a row -----

  /** The state after worker `w` has taken the steps, when each of them is possible. */
  ghost function Exec(c: Config, s: State, w: nat, acts: seq<Action>): Option<State>
    decreases |acts|
  {
    if !Shape(c, s) then None
    else if acts == [] then Some(s)
    else if Can(c, s, w, acts[0]) then Exec(c, Do(c, s, w, acts[0]), w, acts[1..])
    else None
  }

  lemma {:induction false} ExecShape(c: Config, s: State, w: nat, acts: seq<Action>)
    requires Exec(c, s, w, acts).Some?
    ensures Shape(c, Exec(c, s, w, acts).value)
    decreases |acts|
  {
    if acts != [] { ExecShape(c, Do(c, s, w, acts[0]), w, acts[1..]); }
  }

  lemma {:induction false} ExecAgain(c: Config, s: State, w: nat, acts: seq<Action>, t: State, a: Action)
    requires Exec(c, s, w, acts) == Some(t) && Shape(c, t) && Can(c, t, w, a)
    ensures Exec(c, s, w, acts + [a]) == Some(Do(c, t, w, a))
    decreases |acts|
  {
    if acts == [] {
      StepShape(c, t, w, a);
      assert [a][1..] == [];
      assert Exec(c, Do(c, t, w, a), w, []) == Some(Do(c, t, w, a));
      assert [] + [a] == [a];
    } else {
      ExecAgain(c, Do(c, s, w, acts[0]), w, acts[1..], t, a);
      assert (acts + [a])[1..] == acts[1..] + [a];
    }
  }

  /** Outside a split the chunk table is no longer than the pool, as `Acquire` needs. */
  lemma TableNotLonger(c: Config, run: seq<State>, labels: seq<Label>, n: nat)
    requires c.Valid() && c.splits && IsRun(c, run, labels) && n < |run| && run[n].mutex.None?
    ensures Shape(c, run[n]) && |run[n].chunks| <= |run[n].slots|
  {
    RunClaims(c, run, labels, n);
    RunSafe(c, run, labels, n);
  }

  // ----- the tables after a split -----

  /** The download's fixed arrays and the rows, before or after `on_rebalance_split`. */
  datatype Tables = Tables(chunks: seq<Chunk>, live: seq<nat>, progressSlots: seq<int>, rows: seq<Row>)

  function MirrorVictimIn(t: Tables, victimStart: nat, split: nat): Tables {
    t.(chunks := ShrinkChunk(t.chunks, victimStart, split),
       rows := if FirstAt(t.chunks, victimStart) < |t.chunks| then UpdateRange(t.rows, victimStart, split) else t.rows)
  }

  function MirrorTailIn(t: Tables, split: nat, end: nat): Tables {
    var idx := |t.chunks|;
    if idx >= MAX_WORKERS || idx >= |t.progressSlots| then t
    else Tables(t.chunks + [Chunk(split, end)], t.live + [0], t.progressSlots[idx := idx], t.rows + [Row(split, end, 0)])
  }

  ghost predicate InChunk(t: Tables, k: nat) {
    exists i :: 0 <= i < |t.chunks| && t.chunks[i].start <= k < t.chunks[i].end
  }

  ghost predicate InRow(t: Tables, k: nat) {
    exists i :: 0 <= i < |t.rows| && t.rows[i].start <= k < t.rows[i].end
  }

  /** A full table of chunks that do not meet, each with its row. */
  ghost predicate FullTable(t: Tables) {
    && |t.rows| == |t.chunks| == MAX_WORKERS
    && (forall i :: 0 <= i < |t.chunks| ==>
          t.chunks[i].start < t.chunks[i].end && t.rows[i].start == t.chunks[i].start && t.rows[i].end == t.chunks[i].end)
    && (forall i, j :: 0 <= i < j < |t.chunks| ==>
          t.chunks[i].end <= t.chunks[j].start || t.chunks[j].end <= t.chunks[i].start)
  }

  /** A split of chunk `j`'s slot, which starts `offset` bytes into the chunk, when the table is full: exactly
      when the offset is zero the tail is cut off its chunk and its row and put in no other. */
  lemma FullTableLosesTail(t: Tables, j: nat, offset: nat, split: nat, k: nat)
    requires FullTable(t) && j < |t.chunks| && t.chunks[j].start + offset < split < t.chunks[j].end
    ensures var end := t.chunks[j].end;
      var u := MirrorTailIn(MirrorVictimIn(t, t.chunks[j].start + offset, split), split, end);
      && (split <= k < end ==> (InChunk(u, k) <==> offset > 0) && (InRow(u, k) <==> offset > 0))
      && (!(split <= k < end) ==> (InChunk(u, k) <==> InChunk(t, k)) && (InRow(u, k) <==> InRow(t, k)))
  {
    FullTableSplit(t, j, offset, split);
    if offset == 0 {
      CutChunk(t, j, split, k);
      CutRow(t, j, split, k);
    } else {
      assert t.rows[j].start <= k < t.rows[j].end <==> t.chunks[j].start <= k < t.chunks[j].end;
    }
  }

  lemma FullTableSplit(t: Tables, j: nat, offset: nat, split: nat)
    requires FullTable(t) && j < |t.chunks| && t.chunks[j].start + offset < split < t.chunks[j].end
    ensures var ch := t.chunks[j];
      MirrorTailIn(MirrorVictimIn(t, ch.start + offset, split), split, ch.end)
      == if offset > 0 then t
         else t.(chunks := t.chunks[j := Chunk(ch.start, split)], rows := UpdateRange(t.rows, ch.start, split))
  {
    StartsApart(t, j, t.chunks[j].start + offset);
  }

  /** A byte inside a chunk is the start of no other. */
  lemma StartsApart(t: Tables, j: nat, at: nat)
    requires FullTable(t) && j < |t.chunks| && t.chunks[j].start <= at < t.chunks[j].end
    ensures forall i :: 0 <= i < |t.chunks| && i != j ==> t.chunks[i].start != at && t.rows[i].start != at
    ensures FirstAt(t.chunks, at) == if at == t.chunks[j].start then j else |t.chunks|
  {
  }

  lemma CutChunk(t: Tables, j: nat, split: nat, k: nat)
    requires FullTable(t) && j < |t.chunks| && t.chunks[j].start < split < t.chunks[j].end
    ensures var u := t.(chunks := t.chunks[j := Chunk(t.chunks[j].start, split)], rows := UpdateRange(t.rows, t.chunks[j].start, split));
      InChunk(u, k) <==> InChunk(t, k) && !(split <= k < t.chunks[j].end)
  {
    var cut := t.chunks[j := Chunk(t.chunks[j].start, split)];
    if i :| 0 <= i < |t.chunks| && t.chunks[i].start <= k < t.chunks[i].end {
      assert cut[i].start <= k < cut[i].end <==> !(split <= k < t.chunks[j].end);
    }
    if i :| 0 <= i < |cut| && cut[i].start <= k < cut[i].end {
      assert t.chunks[i].start <= k < t.chunks[i].end;
    }
  }

  lemma CutRow(t: Tables, j: nat, split: nat, k: nat)
    requires FullTable(t) && j < |t.chunks| && t.chunks[j].start < split < t.chunks[j].end
    ensures var u := t.(chunks := t.chunks[j := Chunk(t.chunks[j].start, split)], rows := UpdateRange(t.rows, t.chunks[j].start, split));
      InRow(u, k) <==> InRow(t, k) && !(split <= k < t.chunks[j].end)
  {
    var cut := UpdateRange(t.rows, t.chunks[j].start, split);
    StartsApart(t, j, t.chunks[j].start);
    if i :| 0 <= i < |t.rows| && t.rows[i].start <= k < t.rows[i].end {
      assert cut[i].start <= k < cut[i].end <==> !(split <= k < t.chunks[j].end);
    }
    if i :| 0 <= i < |cut| && cut[i].start <= k < cut[i].end {
      assert t.rows[i].start <= k < t.rows[i].end;
    }
  }

  // ----- the pool -----

  /** What the search for a victim reads of one slot. */
  method BytesLeft(t: Slot) returns (r: nat)
    ensures r == Left(t)
  {
    r := 0;
    if t.exhausted {
      return;
    }
    if !t.claimed {
      return;
    }
    var wp := t.writePos;
    var le := t.liveEnd;
    r := if le > wp then le - wp else 0;
  }

  class RebalancePool {
    var slots: seq<Slot>
    var workers: seq<Worker>
    var mutex: Option<nat>
    var file: seq<Byte>
    var downloaded: nat
    var chunks: seq<Chunk>
    var live: seq<nat>
    var progressSlots: seq<int>
    var rows: seq<Row>

    ghost function View(): State
      reads this
    {
      State(slots, workers, mutex, file, downloaded, chunks, live, progressSlots, rows)
    }

    /** `rebalance_pool_create` over the first eight ranges, and the threads that start on them: each slot
        begins where its range resumes. */
    constructor (ranges: seq<S.Range>, progress: seq<int>, f: seq<Byte>, done: nat, t: Tables)
      requires |ranges| <= |progress| && forall i :: 0 <= i < |ranges| ==> ranges[i].end >= -1
      ensures |slots| == |workers| == (if |ranges| > MAX_WORKERS then MAX_WORKERS else |ranges|)
      ensures forall i :: 0 <= i < |slots| ==>
        var lo, hi := ranges[i].start + ranges[i].resumeOffset, ranges[i].end + 1;
        slots[i] == Slot(lo, lo, hi, true, false, i, progress[i]) && workers[i] == Worker(i, lo, hi, 0, false, Streaming)
      ensures mutex.None? && file == f && downloaded == done
      ensures chunks == t.chunks && live == t.live && progressSlots == t.progressSlots && rows == t.rows
    {
      slots, workers, mutex, file, downloaded := [], [], None, f, done;
      chunks, live, progressSlots, rows := t.chunks, t.live, t.progressSlots, t.rows;
      new;
      var n := if |ranges| > MAX_WORKERS then MAX_WORKERS else |ranges|;
      var i := 0;
      while i < n
        invariant 0 <= i <= n && |slots| == |workers| == i
        invariant mutex.None? && file == f && downloaded == done
        invariant chunks == t.chunks && live == t.live && progressSlots == t.progressSlots && rows == t.rows
        invariant forall k :: 0 <= k < i ==>
          var lo, hi := ranges[k].start + ranges[k].resumeOffset, ranges[k].end + 1;
          slots[k] == Slot(lo, lo, hi, true, false, k, progress[k]) && workers[k] == Worker(k, lo, hi, 0, false, Streaming)
      {
        var lo, hi := ranges[i].start + ranges[i].resumeOffset, ranges[i].end + 1;
        slots := slots + [Slot(lo, lo, hi, true, false, i, progress[i])];
        workers := workers + [Worker(i, lo, hi, 0, false, Streaming)];
        i := i + 1;
      }
    }

    /** `worker_write_callback`: `stopped` tells whether a flag is set or the rate limit refuses, `data` is what
        the server sent for the offset the worker has reached, `stored` how much of it the disk takes. */
    method Callback(ghost c: Config, w: nat, stopped: bool, data: seq<Byte>, stored: nat)
        returns (written: nat, ghost acts: seq<Action>)
      requires Shape(c, View()) && Can(c, View(), w, Deliver(|data|)) && workers[w].reqEnd <= |c.content|
      requires data == c.content[workers[w].base + workers[w].bytesDone..][..|data|]
      modifies this`workers, this`slots, this`file, this`downloaded, this`live
      ensures View() == if stopped then Refused(old(View()), w) else AfterCallback(old(View()), w, data, stored)
      ensures written == if stopped || stored < Clamped(old(View()), w, |data|) then 0 else Clamped(old(View()), w, |data|)
      ensures acts == if stopped then [Stop(false)] else CallbackSteps(old(View()), w, |data|, stored)
      ensures Exec(c, old(View()), w, acts) == Some(View())
    {
      ghost var s := View();
      var k := workers[w];
      if stopped {
        StopTrace(c, s, w);
        workers := workers[w := k.(pc := Ended(false))];
        return 0, [Stop(false)];
      }
      var offset := k.base + k.bytesDone;
      var writable := |data|;
      var liveEnd := slots[k.slot].liveEnd;
      DeliverTrace(c, s, w, data);
      if offset >= liveEnd {
        workers := workers[w := k.(truncated := true, pc := Ended(false))];
        return 0, [Deliver(|data|)];
      }
      var truncated := k.truncated;
      if writable > liveEnd - offset {
        writable := liveEnd - offset;
        truncated := true;
      }
      if stored < writable {
        WriteFailsTrace(c, s, w, data, stored);
        file := WriteAt(file, offset, data[..stored]);
        workers := workers[w := k.(truncated := truncated, pc := Ended(false))];
        return 0, [Deliver(|data|), WriteFails(stored)];
      }
      WrittenTrace(c, s, w, data);
      Count(c, w, data, writable, truncated);
      written := writable;
      acts := [Deliver(|data|), WriteFile, CountBytes, CountPos, CountTotal, CountChunk];
    }

    /** The end of the callback: a write that succeeds, and the four counters. */
    method Count(ghost c: Config, w: nat, data: seq<Byte>, writable: nat, truncated: bool)
      requires Sent(c, View(), w, data) && writable == Clamped(View(), w, |data|)
      requires truncated == (workers[w].truncated || writable < |data|)
      modifies this`workers, this`slots, this`file, this`downloaded, this`live
      ensures View() == AfterWritten(old(View()), w, data)
      ensures w < |workers| && workers[w].pc == if writable < |data| then Ended(false) else Streaming
    {
      var k := workers[w];
      var p := slots[k.slot].progress;
      file := WriteAt(file, k.base + k.bytesDone, data[..writable]);
      workers := workers[w := k.(bytesDone := k.bytesDone + writable, truncated := truncated,
                                 pc := if writable < |data| then Ended(false) else Streaming)];
      slots := slots[k.slot := slots[k.slot].(writePos := slots[k.slot].writePos + writable)];
      downloaded := downloaded + writable;
      if p >= 0 {
        live := live[p := live[p] + writable];
      }
    }

    /** The success test of `run_one_segment`, and `rebalance_pool_mark_done` after a success: it passes
        exactly when as many bytes arrived as the slot now asks for, with a good status and an end that
        curl calls complete or the pool cut short. */
    method Finish(ghost c: Config, w: nat, httpOk: bool) returns (succeeded: bool, ghost acts: seq<Action>)
      requires Shape(c, View()) && w < |workers| && workers[w].pc.Ended? && mutex.None?
      modifies this`workers, this`slots
      ensures succeeded == TestPasses(old(View()), w, httpOk)
      ensures View() == if succeeded then Finished(old(View()), w) else Failed(old(View()), w)
      ensures acts == (if succeeded then [Test(httpOk), MarkDone] else [Test(httpOk)])
      ensures Exec(c, old(View()), w, acts) == Some(View())
    {
      ghost var s := View();
      var k := workers[w];
      var liveEnd := slots[k.slot].liveEnd;
      var expected := if liveEnd > k.base then liveEnd - k.base else 0;
      succeeded := httpOk && k.bytesDone == expected && (k.pc.curlOk || k.truncated);
      TestTrace(c, s, w, httpOk);
      if succeeded {
        slots := slots[k.slot := slots[k.slot].(exhausted := true, claimed := false)];
        workers := workers[w := k.(pc := Idle)];
        acts := [Test(httpOk), MarkDone];
      } else {
        workers := workers[w := k.(pc := Exited(false))];
        acts := [Test(httpOk)];
      }
    }

    /** `on_rebalance_split`: shrink the victim's chunk and its row, then append the tail's. */
    method OnSplit(victimStart: nat, split: nat, end: nat)
      requires |progressSlots| == MAX_WORKERS
      modifies this`chunks, this`live, this`progressSlots, this`rows
      ensures Tables(chunks, live, progressSlots, rows)
           == MirrorTailIn(MirrorVictimIn(old(Tables(chunks, live, progressSlots, rows)), victimStart, split), split, end)
    {
      var j := 0;
      while j < |chunks| && chunks[j].start != victimStart
        invariant 0 <= j <= |chunks|
        invariant FirstAt(chunks, victimStart) == j + FirstAt(chunks[j..], victimStart)
      {
        assert chunks[j..][1..] == chunks[j + 1..];
        j := j + 1;
      }
      if j < |chunks| {
        chunks := chunks[j := Chunk(victimStart, split)];
        rows := UpdateRange(rows, victimStart, split);
      }
      if |chunks| >= MAX_WORKERS {
        return;
      }
      var idx := |chunks|;
      chunks := chunks + [Chunk(split, end)];
      live := live + [0];
      progressSlots := progressSlots[idx := idx];
      rows := rows + [Row(split, end, 0)];
    }

    /** The search for an orphaned slot; the pool's size when there is none. */
    method FindOrphan() returns (i: nat)
      ensures i == OrphanAt(slots)
    {
      i := 0;
      while i < |slots| && !(!slots[i].exhausted && !slots[i].claimed)
        invariant 0 <= i <= |slots|
        invariant OrphanAt(slots) == i + OrphanAt(slots[i..])
      {
        assert slots[i..][1..] == slots[i + 1..];
        i := i + 1;
      }
    }

    /** The search for the busiest claimed slot; -1 when none has a byte left. */
    method FindBusiest() returns (victim: int, remaining: nat)
      ensures (victim, remaining) == Victim(slots, |slots|)
    {
      victim, remaining := -1, 0;
      var i := 0;
      while i < |slots|
        invariant 0 <= i <= |slots| && (victim, remaining) == Victim(slots, i)
      {
        var r := BytesLeft(slots[i]);
        if r > remaining {
          remaining := r;
          victim := i;
        }
        i := i + 1;
      }
    }

    /** `rebalance_pool_acquire`, with the mutex held from start to end: the first orphan, else the tail
        of the busiest slot, else nothing; and that is what the worker's steps from Lock on lead to. */
    method Acquire(ghost c: Config, w: nat, minSteal: nat) returns (got: int, ghost acts: seq<Action>)
      requires Shape(c, View()) && w < |workers| && workers[w].pc.Idle? && mutex.None?
      requires c.splits && minSteal == c.minSteal && |chunks| <= |slots|
      modifies this
      ensures View() == Acquired(old(View()), w, minSteal) && got == AcquiredSlot(old(View()), minSteal)
      ensures acts == AcquireSteps(old(View()), minSteal) && Exec(c, old(View()), w, acts) == Some(View())
    {
      ghost var s := View();
      var orphan := FindOrphan();
      if orphan < |slots| {
        OrphanTrace(c, s, w);
        acts := AcquireSteps(s, minSteal);
        got := orphan;
        var t := slots[got];
        slots := slots[got := t.(claimed := true, owner := w)];
        workers := workers[w := Worker(got, t.writePos, t.liveEnd, 0, false, Streaming)];
        return;
      }
      SearchTrace(c, s, w);
      got, acts := Steal(c, w, minSteal, SearchSteps(|slots|));
    }

    /** Steps 2 and 3 of `rebalance_pool_acquire`. */
    method Steal(ghost c: Config, w: nat, minSteal: nat, ghost acts0: seq<Action>)
        returns (got: int, ghost acts: seq<Action>)
      requires w < |workers| && mutex.None? && |progressSlots| == MAX_WORKERS
      requires c.splits && minSteal == c.minSteal && |chunks| <= |slots|
      requires var (best, remaining) := Victim(slots, |slots|);
        Exec(c, View(), w, acts0) == Some(Held(View(), w, Busiest(|slots|, best, remaining)))
      modifies this
      ensures View() == Stolen(old(View()), w, minSteal) && got == StolenSlot(old(View()), minSteal)
      ensures acts == acts0 + StealSteps(old(View()), minSteal) && Exec(c, old(View()), w, acts) == Some(View())
    {
      ghost var s := View();
      var victim, remaining := FindBusiest();
      got := -1;
      VictimBounds(slots, |slots|);
      BusiestEnd(c, s, w, acts0, victim, remaining);
      acts := acts0 + [ScanBusiest];
      if victim == -1 || remaining < minSteal || |slots| >= MAX_WORKERS {
        workers := workers[w := workers[w].(pc := Exited(true))];
        return;
      }
      SplitSteps(c, s, w, victim, acts);
      StealStepsAre(s, minSteal, acts0);
      acts := acts0 + StealSteps(s, minSteal);
      got := Split(w, victim);
    }

    /** Step 3 of `rebalance_pool_acquire`. */
    method Split(w: nat, victim: nat) returns (got: nat)
      requires w < |workers| && victim < |slots| < MAX_WORKERS == |progressSlots| && mutex.None?
      modifies this
      ensures View() == AfterSplit(old(View()), w, victim) && got == |old(slots)|
    {
      ghost var s := View();
      var wp := slots[victim].writePos;
      var le := slots[victim].liveEnd;
      var split := SplitPoint(wp, le);
      slots := slots[victim := slots[victim].(liveEnd := split)];
      got := |slots|;
      slots := slots + [Slot(split, split, le, true, false, w, -1)];
      OnSplit(slots[victim].start, split, le);
      slots := slots[got := slots[got].(progress := progressSlots[got])];
      workers := workers[w := Worker(got, split, le, 0, false, Streaming)];
      assert slots == AfterSplit(s, w, victim).slots;
    }
  }

  lemma StealStepsAre(s: State, minSteal: nat, acts: seq<Action>)
    requires StolenSlot(s, minSteal) != -1
    ensures acts + StealSteps(s, minSteal)
         == acts + [ScanBusiest] + [RereadPos, ShrinkVictim, AppendSlot] + [MirrorVictim, MirrorTail]
  {
  }

  // ----- what a callback and the test come to -----

  /** The state after a callback that a flag or the rate limit stops: the request ends. */
  ghost function Refused(s: State, w: nat): State
    requires w < |s.workers|
  {
    s.(workers := s.workers[w := s.workers[w].(pc := Ended(false))])
  }

  lemma StopTrace(c: Config, s: State, w: nat)
    requires Shape(c, s) && Can(c, s, w, Stop(false))
    ensures Exec(c, s, w, [Stop(false)]) == Some(Refused(s, w))
  {
    assert Exec(c, s, w, []) == Some(s);
    ExecAgain(c, s, w, [], s, Stop(false));
    assert [] + [Stop(false)] == [Stop(false)];
  }

  /** The state after a callback for which the disk takes `stored` bytes. */
  ghost function AfterCallback(s: State, w: nat, data: seq<Byte>, stored: nat): State
    requires w < |s.workers| && s.workers[w].slot < |s.slots|
    requires s.slots[s.workers[w].slot].progress < |s.live|
  {
    if Clamped(s, w, |data|) == 0 then Loading(s, w, |data|)
    else if stored < Clamped(s, w, |data|) then FailedWrite(s, w, data, stored)
    else AfterWritten(s, w, data)
  }

  function CallbackSteps(s: State, w: nat, n: nat, stored: nat): seq<Action>
    requires w < |s.workers| && s.workers[w].slot < |s.slots|
  {
    if Clamped(s, w, n) == 0 then [Deliver(n)]
    else if stored < Clamped(s, w, n) then [Deliver(n), WriteFails(stored)]
    else [Deliver(n), WriteFile, CountBytes, CountPos, CountTotal, CountChunk]
  }

  /** A write of which the disk took only the first `p` bytes: they are there and counted nowhere. */
  ghost function FailedWrite(s: State, w: nat, data: seq<Byte>, p: nat): State
    requires w < |s.workers| && s.workers[w].slot < |s.slots| && p <= |data|
  {
    var k := s.workers[w];
    s.(file := WriteAt(s.file, k.base + k.bytesDone, data[..p]),
       workers := s.workers[w := k.(truncated := k.truncated || Clamped(s, w, |data|) < |data|, pc := Ended(false))])
  }

  /** The exact-byte test. */
  predicate TestPasses(s: State, w: nat, httpOk: bool)
    requires w < |s.workers| && s.workers[w].slot < |s.slots| && s.workers[w].pc.Ended?
  {
    var k := s.workers[w];
    var liveEnd := s.slots[k.slot].liveEnd;
    httpOk && k.bytesDone == (if liveEnd > k.base then liveEnd - k.base else 0) && (k.pc.curlOk || k.truncated)
  }

  /** The slot is exhausted and released. */
  ghost function Finished(s: State, w: nat): State
    requires w < |s.workers| && s.workers[w].slot < |s.slots|
  {
    var i := s.workers[w].slot;
    s.(slots := s.slots[i := s.slots[i].(exhausted := true, claimed := false)],
       workers := s.workers[w := s.workers[w].(pc := Idle)])
  }

  /** The worker leaves, its slot still claimed. */
  ghost function Failed(s: State, w: nat): State
    requires w < |s.workers|
  {
    s.(workers := s.workers[w := s.workers[w].(pc := Exited(false))])
  }

  // ----- a callback and the test, step by step -----

  /** How much of `n` bytes the clamp lets worker `w` write. */
  function Clamped(s: State, w: nat, n: nat): nat
    requires w < |s.workers| && s.workers[w].slot < |s.slots|
    ensures Clamped(s, w, n) <= n
  {
    var offset, liveEnd := s.workers[w].base + s.workers[w].bytesDone, s.slots[s.workers[w].slot].liveEnd;
    if offset >= liveEnd then 0 else if n > liveEnd - offset then liveEnd - offset else n
  }

  /** The worker past its clamp. */
  ghost function Loading(s: State, w: nat, n: nat): State
    requires w < |s.workers| && s.workers[w].slot < |s.slots|
  {
    var k, m := s.workers[w], Clamped(s, w, n);
    if m == 0 then s.(workers := s.workers[w := k.(truncated := true, pc := Ended(false))])
    else s.(workers := s.workers[w := k.(truncated := k.truncated || m < n, pc := Loaded(n, m))])
  }

  lemma DeliverTrace(c: Config, s: State, w: nat, data: seq<Byte>)
    requires Shape(c, s) && Can(c, s, w, Deliver(|data|))
    ensures Exec(c, s, w, [Deliver(|data|)]) == Some(Loading(s, w, |data|))
  {
    assert Exec(c, s, w, []) == Some(s);
    ExecAgain(c, s, w, [], s, Deliver(|data|));
    assert [] + [Deliver(|data|)] == [Deliver(|data|)];
    assert Do(c, s, w, Deliver(|data|)).workers == Loading(s, w, |data|).workers;
  }

  lemma PartOf(content: seq<Byte>, o: nat, n: nat, m: nat)
    requires m <= n && o + n <= |content|
    ensures content[o..o + m] == content[o..][..n][..m]
  {
  }

  ghost predicate Sent(c: Config, s: State, w: nat, data: seq<Byte>) {
    && Shape(c, s) && Can(c, s, w, Deliver(|data|)) && s.workers[w].reqEnd <= |c.content|
    && data == c.content[s.workers[w].base + s.workers[w].bytesDone..][..|data|]
    && Clamped(s, w, |data|) > 0
  }

  lemma WriteFailsTrace(c: Config, s: State, w: nat, data: seq<Byte>, p: nat)
    requires Sent(c, s, w, data) && p < Clamped(s, w, |data|)
    ensures Exec(c, s, w, [Deliver(|data|), WriteFails(p)]) == Some(FailedWrite(s, w, data, p))
  {
    var k := s.workers[w];
    var o := k.base + k.bytesDone;
    DeliverTrace(c, s, w, data);
    ExecShape(c, s, w, [Deliver(|data|)]);
    var t := Loading(s, w, |data|);
    ExecAgain(c, s, w, [Deliver(|data|)], t, WriteFails(p));
    assert [Deliver(|data|)] + [WriteFails(p)] == [Deliver(|data|), WriteFails(p)];
    PartOf(c.content, o, |data|, p);
    var cut := k.truncated || Clamped(s, w, |data|) < |data|;
    assert t.workers[w] == k.(truncated := cut, pc := Loaded(|data|, Clamped(s, w, |data|)));
    var u := Do(c, t, w, WriteFails(p));
    assert u.workers == t.workers[w := k.(truncated := cut, pc := Ended(false))];
    assert u.workers == s.workers[w := k.(truncated := cut, pc := Ended(false))];
  }

  /** The state after a callback that wrote all it might. */
  ghost function AfterWritten(s: State, w: nat, data: seq<Byte>): State
    requires w < |s.workers| && s.workers[w].slot < |s.slots| && Clamped(s, w, |data|) <= |data|
    requires s.slots[s.workers[w].slot].progress < |s.live|
  {
    var k, m := s.workers[w], Clamped(s, w, |data|);
    var t := s.slots[k.slot];
    s.(file := WriteAt(s.file, k.base + k.bytesDone, data[..m]),
       slots := s.slots[k.slot := t.(writePos := t.writePos + m)],
       downloaded := s.downloaded + m,
       live := if t.progress < 0 then s.live else s.live[t.progress := s.live[t.progress] + m],
       workers := s.workers[w := k.(bytesDone := k.bytesDone + m, truncated := k.truncated || m < |data|,
                                    pc := if m < |data| then Ended(false) else Streaming)])
  }

  /** Halfway: written, and the worker's own count bumped. */
  ghost function HalfWritten(s: State, w: nat, data: seq<Byte>): State
    requires w < |s.workers| && s.workers[w].slot < |s.slots| && Clamped(s, w, |data|) <= |data|
  {
    var k, m := s.workers[w], Clamped(s, w, |data|);
    s.(file := WriteAt(s.file, k.base + k.bytesDone, data[..m]),
       workers := s.workers[w := k.(bytesDone := k.bytesDone + m, truncated := k.truncated || m < |data|,
                                    pc := BytesCounted(|data|, m))])
  }

  lemma HalfTrace(c: Config, s: State, w: nat, data: seq<Byte>)
    requires Sent(c, s, w, data)
    ensures Exec(c, s, w, [Deliver(|data|), WriteFile, CountBytes]) == Some(HalfWritten(s, w, data))
  {
    var k, m := s.workers[w], Clamped(s, w, |data|);
    var o := k.base + k.bytesDone;
    DeliverTrace(c, s, w, data);
    ExecShape(c, s, w, [Deliver(|data|)]);
    var t0 := Loading(s, w, |data|);
    ExecAgain(c, s, w, [Deliver(|data|)], t0, WriteFile);
    assert [Deliver(|data|)] + [WriteFile] == [Deliver(|data|), WriteFile];
    PartOf(c.content, o, |data|, m);
    var t1 := Do(c, t0, w, WriteFile);
    ExecShape(c, s, w, [Deliver(|data|), WriteFile]);
    ExecAgain(c, s, w, [Deliver(|data|), WriteFile], t1, CountBytes);
    assert [Deliver(|data|), WriteFile] + [CountBytes] == [Deliver(|data|), WriteFile, CountBytes];
    assert Do(c, t1, w, CountBytes).workers == HalfWritten(s, w, data).workers;
  }

  /** The pool and the download counted too. */
  ghost function PoolCounted(s: State, w: nat, data: seq<Byte>): State
    requires w < |s.workers| && s.workers[w].slot < |s.slots| && Clamped(s, w, |data|) <= |data|
  {
    var h, k, m := HalfWritten(s, w, data), s.workers[w], Clamped(s, w, |data|);
    h.(slots := s.slots[k.slot := s.slots[k.slot].(writePos := s.slots[k.slot].writePos + m)],
       downloaded := s.downloaded + m,
       workers := s.workers[w := h.workers[w].(pc := TotalCounted(|data|, m))])
  }

  /** The slot counted. */
  ghost function SlotCounted(s: State, w: nat, data: seq<Byte>): State
    requires w < |s.workers| && s.workers[w].slot < |s.slots| && Clamped(s, w, |data|) <= |data|
  {
    var h, k, m := HalfWritten(s, w, data), s.workers[w], Clamped(s, w, |data|);
    h.(slots := s.slots[k.slot := s.slots[k.slot].(writePos := s.slots[k.slot].writePos + m)],
       workers := s.workers[w := h.workers[w].(pc := PosCounted(|data|, m))])
  }

  lemma SlotTrace(c: Config, s: State, w: nat, data: seq<Byte>)
    requires Sent(c, s, w, data)
    ensures Exec(c, s, w, [Deliver(|data|), WriteFile, CountBytes, CountPos]) == Some(SlotCounted(s, w, data))
  {
    var half := [Deliver(|data|), WriteFile, CountBytes];
    HalfTrace(c, s, w, data);
    ExecShape(c, s, w, half);
    var t := HalfWritten(s, w, data);
    ExecAgain(c, s, w, half, t, CountPos);
    assert half + [CountPos] == [Deliver(|data|), WriteFile, CountBytes, CountPos];
    assert Do(c, t, w, CountPos).workers == SlotCounted(s, w, data).workers;
  }

  lemma CountTrace(c: Config, s: State, w: nat, data: seq<Byte>)
    requires Sent(c, s, w, data)
    ensures Exec(c, s, w, [Deliver(|data|), WriteFile, CountBytes, CountPos, CountTotal]) == Some(PoolCounted(s, w, data))
  {
    var done := [Deliver(|data|), WriteFile, CountBytes, CountPos];
    SlotTrace(c, s, w, data);
    ExecShape(c, s, w, done);
    var t := SlotCounted(s, w, data);
    ExecAgain(c, s, w, done, t, CountTotal);
    assert done + [CountTotal] == [Deliver(|data|), WriteFile, CountBytes, CountPos, CountTotal];
    assert Do(c, t, w, CountTotal).workers == PoolCounted(s, w, data).workers;
  }

  lemma WrittenTrace(c: Config, s: State, w: nat, data: seq<Byte>)
    requires Sent(c, s, w, data)
    ensures Exec(c, s, w, [Deliver(|data|), WriteFile, CountBytes, CountPos, CountTotal, CountChunk])
         == Some(AfterWritten(s, w, data))
  {
    var done := [Deliver(|data|), WriteFile, CountBytes, CountPos, CountTotal];
    CountTrace(c, s, w, data);
    ExecShape(c, s, w, done);
    var t := PoolCounted(s, w, data);
    ChunkCounted(c, s, w, data);
    ExecAgain(c, s, w, done, t, CountChunk);
    assert done + [CountChunk] == [Deliver(|data|), WriteFile, CountBytes, CountPos, CountTotal, CountChunk];
    ChunkCounted(c, s, w, data);
  }

  lemma ChunkCounted(c: Config, s: State, w: nat, data: seq<Byte>)
    requires Sent(c, s, w, data) && Shape(c, PoolCounted(s, w, data))
    ensures Can(c, PoolCounted(s, w, data), w, CountChunk)
    ensures Do(c, PoolCounted(s, w, data), w, CountChunk) == AfterWritten(s, w, data)
  {
    assert Do(c, PoolCounted(s, w, data), w, CountChunk).workers == AfterWritten(s, w, data).workers;
  }

  lemma TestTrace(c: Config, s: State, w: nat, httpOk: bool)
    requires Shape(c, s) && w < |s.workers| && s.workers[w].pc.Ended? && s.mutex.None?
    ensures var ok := TestPasses(s, w, httpOk);
      Exec(c, s, w, if ok then [Test(httpOk), MarkDone] else [Test(httpOk)])
      == Some(if ok then Finished(s, w) else Failed(s, w))
  {
    assert Exec(c, s, w, []) == Some(s);
    ExecAgain(c, s, w, [], s, Test(httpOk));
    assert [] + [Test(httpOk)] == [Test(httpOk)];
    if TestPasses(s, w, httpOk) {
      var t := Do(c, s, w, Test(httpOk));
      ExecShape(c, s, w, [Test(httpOk)]);
      ExecAgain(c, s, w, [Test(httpOk)], t, MarkDone);
      assert [Test(httpOk)] + [MarkDone] == [Test(httpOk), MarkDone];
      assert Do(c, t, w, MarkDone).workers == s.workers[w := s.workers[w].(pc := Idle)];
    }
  }

  /** A segment whose slot was shrunk under it succeeds, although curl reports a write error: a callback that brings
      more than fits writes what fits, and then the test passes. */
  lemma ShrunkSegmentPasses(c: Config, s: State, w: nat, data: seq<Byte>)
    requires Sent(c, s, w, data) && Clamped(s, w, |data|) < |data| && s.mutex.None?
    ensures var t := AfterWritten(s, w, data);
      && t.workers[w].pc == Ended(false) && TestPasses(t, w, true)
      && Exec(c, t, w, [Test(true), MarkDone]) == Some(Finished(t, w))
  {
    WrittenTrace(c, s, w, data);
    ExecShape(c, s, w, [Deliver(|data|), WriteFile, CountBytes, CountPos, CountTotal, CountChunk]);
    TestTrace(c, AfterWritten(s, w, data), w, true);
  }

  /** A worker that takes an orphaned slot goes on where the slot was left. */
  lemma OrphanGoesOn(c: Config, s: State, w: nat)
    requires Shape(c, s) && w < |s.workers| && OrphanAt(s.slots) < |s.slots|
    ensures var i := OrphanAt(s.slots);
      var t := Acquired(s, w, c.minSteal);
      && t.workers[w].slot == i && t.workers[w].base == s.slots[i].writePos && t.workers[w].reqEnd == s.slots[i].liveEnd
      && t.slots[i].claimed && t.slots[i].owner == w
  {
  }

  /** A split is worth its trouble: the victim had at least the threshold left, and the thief takes the upper half. */
  lemma StealTakesHalf(c: Config, s: State, w: nat)
    requires Shape(c, s) && w < |s.workers| && OrphanAt(s.slots) == |s.slots| && StolenSlot(s, c.minSteal) != -1
    ensures var (v, left) := Victim(s.slots, |s.slots|);
      && 0 <= v && left >= c.minSteal && |s.slots| < 8
      && Acquired(s, w, c.minSteal) == AfterSplit(s, w, v)
  {
    VictimBounds(s.slots, |s.slots|);
  }

  // ----- the steps of an acquire, one by one -----

  /** Bytes a thief sees left in a slot. */
  function Left(t: Slot): nat {
    if !t.exhausted && t.claimed && t.liveEnd > t.writePos then t.liveEnd - t.writePos else 0
  }

  /** The state once `w` has left for good. */
  ghost function Gone(s: State, w: nat): State
    requires w < |s.workers|
  {
    s.(workers := s.workers[w := s.workers[w].(pc := Exited(true))])
  }

  /** The state with the mutex held by `w` at `pc`. */
  ghost function Held(s: State, w: nat, pc: Pc): State
    requires w < |s.workers|
  {
    s.(mutex := Some(w), workers := s.workers[w := s.workers[w].(pc := pc)])
  }

  /** The state once `w` has taken the slot `i`. */
  ghost function Taken(s: State, w: nat, i: nat): State
    requires w < |s.workers| && i < |s.slots|
  {
    var t := s.slots[i];
    s.(slots := s.slots[i := t.(claimed := true, owner := w)],
       workers := s.workers[w := Worker(i, t.writePos, t.liveEnd, 0, false, Streaming)])
  }

  lemma LockStep(c: Config, s: State, w: nat)
    requires Shape(c, s) && w < |s.workers| && s.workers[w].pc.Idle? && s.mutex.None?
    ensures Exec(c, s, w, [Lock]) == Some(Held(s, w, Orphans(0)))
  {
    assert Exec(c, s, w, []) == Some(s);
    ExecAgain(c, s, w, [], s, Lock);
    assert [] + [Lock] == [Lock];
  }

  lemma OrphanStep(c: Config, s: State, w: nat, i: nat)
    requires w < |s.workers| && i < |s.slots| && s.mutex.None? && Shape(c, Held(s, w, Orphans(i)))
    ensures Can(c, Held(s, w, Orphans(i)), w, ScanOrphan)
    ensures Do(c, Held(s, w, Orphans(i)), w, ScanOrphan)
         == if !s.slots[i].exhausted && !s.slots[i].claimed then Taken(s, w, i) else Held(s, w, Orphans(i + 1))
  {
    var h := Held(s, w, Orphans(i));
    assert h.workers[w].pc == Orphans(i);
    var t := Do(c, h, w, ScanOrphan);
    if !s.slots[i].exhausted && !s.slots[i].claimed {
      assert t.workers == Taken(s, w, i).workers;
    } else {
      assert t.workers == Held(s, w, Orphans(i + 1)).workers;
    }
  }

  // ----- what an acquire comes to -----

  /** What is left to a thief that found no orphan. */
  ghost function Stolen(s: State, w: nat, minSteal: nat): State
    requires w < |s.workers| && |s.progressSlots| == MAX_WORKERS
  {
    var (best, remaining) := Victim(s.slots, |s.slots|);
    if StolenSlot(s, minSteal) == -1 then Gone(s, w) else AfterSplit(s, w, best)
  }

  /** The index of the new slot; -1 when no slot is worth splitting or the pool is full. */
  function StolenSlot(s: State, minSteal: nat): int {
    var (best, remaining) := Victim(s.slots, |s.slots|);
    if best == -1 || remaining < minSteal || |s.slots| >= MAX_WORKERS then -1 else |s.slots|
  }

  ghost function Acquired(s: State, w: nat, minSteal: nat): State
    requires w < |s.workers| && |s.progressSlots| == MAX_WORKERS
  {
    if OrphanAt(s.slots) < |s.slots| then Taken(s, w, OrphanAt(s.slots)) else Stolen(s, w, minSteal)
  }

  function AcquiredSlot(s: State, minSteal: nat): int {
    if OrphanAt(s.slots) < |s.slots| then OrphanAt(s.slots) else StolenSlot(s, minSteal)
  }

  /** The steps up to the end of the search for a victim. */
  function SearchSteps(n: nat): seq<Action> {
    [Lock] + Repeat(ScanOrphan, n + 1) + Repeat(ScanBusiest, n)
  }

  function StealSteps(s: State, minSteal: nat): seq<Action> {
    if StolenSlot(s, minSteal) == -1 then [ScanBusiest]
    else [ScanBusiest] + [RereadPos, ShrinkVictim, AppendSlot] + [MirrorVictim, MirrorTail]
  }

  function AcquireSteps(s: State, minSteal: nat): seq<Action> {
    if OrphanAt(s.slots) < |s.slots| then [Lock] + Repeat(ScanOrphan, OrphanAt(s.slots) + 1)
    else SearchSteps(|s.slots|) + StealSteps(s, minSteal)
  }

  lemma RepeatOnce(acts: seq<Action>, a: Action, n: nat)
    ensures acts + Repeat(a, n + 1) == acts + Repeat(a, n) + [a]
  {
  }

  function Repeat(a: Action, n: nat): seq<Action> { if n == 0 then [] else Repeat(a, n - 1) + [a] }

  /** The first orphaned slot; the length when there is none. */
  function OrphanAt(slots: seq<Slot>): (i: nat)
    ensures i <= |slots| && (i < |slots| ==> !slots[i].exhausted && !slots[i].claimed)
    ensures forall k :: 0 <= k < i ==> slots[k].exhausted || slots[k].claimed
  {
    if slots == [] || (!slots[0].exhausted && !slots[0].claimed) then 0 else 1 + OrphanAt(slots[1..])
  }

  /** The busiest of the first `n` slots, the first of equals, and what it has left. */
  function Victim(slots: seq<Slot>, n: nat): (r: (int, nat))
    requires n <= |slots|
    ensures -1 <= r.0 < n
  {
    if n == 0 then (-1, 0)
    else
      var before := Victim(slots, n - 1);
      if Left(slots[n - 1]) > before.1 then (n - 1, Left(slots[n - 1])) else before
  }

  /** The victim has the most bytes left; when there is no victim nothing is left anywhere. */
  lemma {:induction false} VictimBounds(slots: seq<Slot>, n: nat)
    requires n <= |slots|
    ensures var (best, remaining) := Victim(slots, n);
      && -1 <= best < n
      && remaining == (if best == -1 then 0 else Left(slots[best]))
      && (forall k :: 0 <= k < n ==> Left(slots[k]) <= remaining)
      && (forall k :: 0 <= k < best ==> Left(slots[k]) < remaining)
  {
    if n > 0 { VictimBounds(slots, n - 1); }
  }

  lemma OrphanRound(c: Config, s: State, w: nat, acts: seq<Action>, i: nat)
    requires w < |s.workers| && i < |s.slots| && s.mutex.None?
    requires Exec(c, s, w, acts) == Some(Held(s, w, Orphans(i)))
    ensures Exec(c, s, w, acts + [ScanOrphan])
         == Some(if !s.slots[i].exhausted && !s.slots[i].claimed then Taken(s, w, i) else Held(s, w, Orphans(i + 1)))
  {
    ExecShape(c, s, w, acts);
    OrphanStep(c, s, w, i);
    ExecAgain(c, s, w, acts, Held(s, w, Orphans(i)), ScanOrphan);
  }

  lemma {:induction false} ScanTrace(c: Config, s: State, w: nat, i: nat)
    requires Shape(c, s) && w < |s.workers| && s.workers[w].pc.Idle? && s.mutex.None?
    requires i <= OrphanAt(s.slots)
    ensures Exec(c, s, w, [Lock] + Repeat(ScanOrphan, i)) == Some(Held(s, w, Orphans(i)))
  {
    if i == 0 {
      LockStep(c, s, w);
      assert [Lock] + Repeat(ScanOrphan, 0) == [Lock];
    } else {
      ScanTrace(c, s, w, i - 1);
      var acts := [Lock] + Repeat(ScanOrphan, i - 1);
      assert acts + [ScanOrphan] == [Lock] + Repeat(ScanOrphan, i);
      OrphanRound(c, s, w, acts, i - 1);
    }
  }

  lemma OrphanTrace(c: Config, s: State, w: nat)
    requires Shape(c, s) && w < |s.workers| && s.workers[w].pc.Idle? && s.mutex.None?
    requires OrphanAt(s.slots) < |s.slots|
    ensures Exec(c, s, w, [Lock] + Repeat(ScanOrphan, OrphanAt(s.slots) + 1)) == Some(Taken(s, w, OrphanAt(s.slots)))
  {
    var i := OrphanAt(s.slots);
    ScanTrace(c, s, w, i);
    var acts := [Lock] + Repeat(ScanOrphan, i);
    assert acts + [ScanOrphan] == [Lock] + Repeat(ScanOrphan, i + 1);
    OrphanRound(c, s, w, acts, i);
  }

  lemma OrphanEnd(c: Config, s: State, w: nat)
    requires Shape(c, s) && w < |s.workers| && s.workers[w].pc.Idle? && s.mutex.None?
    requires OrphanAt(s.slots) == |s.slots|
    ensures Exec(c, s, w, [Lock] + Repeat(ScanOrphan, |s.slots| + 1)) == Some(Held(s, w, Busiest(0, -1, 0)))
  {
    ScanTrace(c, s, w, |s.slots|);
    var acts := [Lock] + Repeat(ScanOrphan, |s.slots|);
    ExecShape(c, s, w, acts);
    var h := Held(s, w, Orphans(|s.slots|));
    assert h.workers[w].pc == Orphans(|s.slots|);
    assert Do(c, h, w, ScanOrphan).workers == Held(s, w, Busiest(0, -1, 0)).workers;
    ExecAgain(c, s, w, acts, h, ScanOrphan);
    assert acts + [ScanOrphan] == [Lock] + Repeat(ScanOrphan, |s.slots| + 1);
  }

  lemma BusiestRound(c: Config, s: State, w: nat, acts: seq<Action>, i: nat, best: int, remaining: nat)
    requires w < |s.workers| && i < |s.slots|
    requires Exec(c, s, w, acts) == Some(Held(s, w, Busiest(i, best, remaining)))
    ensures Exec(c, s, w, acts + [ScanBusiest])
         == Some(if Left(s.slots[i]) > remaining then Held(s, w, Busiest(i + 1, i, Left(s.slots[i])))
                 else Held(s, w, Busiest(i + 1, best, remaining)))
  {
    ExecShape(c, s, w, acts);
    BusiestStep(c, s, w, i, best, remaining);
    ExecAgain(c, s, w, acts, Held(s, w, Busiest(i, best, remaining)), ScanBusiest);
  }

  lemma {:induction false} BusiestTrace(c: Config, s: State, w: nat, acts: seq<Action>, i: nat)
    requires w < |s.workers| && i <= |s.slots| && Exec(c, s, w, acts) == Some(Held(s, w, Busiest(0, -1, 0)))
    ensures var (best, remaining) := Victim(s.slots, i);
      Exec(c, s, w, acts + Repeat(ScanBusiest, i)) == Some(Held(s, w, Busiest(i, best, remaining)))
  {
    if i == 0 {
      assert acts + Repeat(ScanBusiest, 0) == acts;
    } else {
      BusiestTrace(c, s, w, acts, i - 1);
      var (best, remaining) := Victim(s.slots, i - 1);
      RepeatOnce(acts, ScanBusiest, i - 1);
      BusiestRound(c, s, w, acts + Repeat(ScanBusiest, i - 1), i - 1, best, remaining);
    }
  }

  lemma SearchTrace(c: Config, s: State, w: nat)
    requires Shape(c, s) && w < |s.workers| && s.workers[w].pc.Idle? && s.mutex.None?
    requires OrphanAt(s.slots) == |s.slots|
    ensures var (best, remaining) := Victim(s.slots, |s.slots|);
      Exec(c, s, w, SearchSteps(|s.slots|))
      == Some(Held(s, w, Busiest(|s.slots|, best, remaining)))
  {
    OrphanEnd(c, s, w);
    BusiestTrace(c, s, w, [Lock] + Repeat(ScanOrphan, |s.slots| + 1), |s.slots|);
  }

  lemma BusiestStep(c: Config, s: State, w: nat, i: nat, best: int, remaining: nat)
    requires w < |s.workers| && i < |s.slots| && Shape(c, Held(s, w, Busiest(i, best, remaining)))
    ensures Can(c, Held(s, w, Busiest(i, best, remaining)), w, ScanBusiest)
    ensures Do(c, Held(s, w, Busiest(i, best, remaining)), w, ScanBusiest)
         == if Left(s.slots[i]) > remaining then Held(s, w, Busiest(i + 1, i, Left(s.slots[i])))
            else Held(s, w, Busiest(i + 1, best, remaining))
  {
    var h := Held(s, w, Busiest(i, best, remaining));
    assert h.workers[w].pc == Busiest(i, best, remaining);
    var t := Do(c, h, w, ScanBusiest);
    assert t.workers == h.workers[w := h.workers[w].(pc := t.workers[w].pc)];
    assert t.workers == s.workers[w := s.workers[w].(pc := t.workers[w].pc)];
  }

  lemma BusiestEnd(c: Config, s: State, w: nat, acts: seq<Action>, best: int, remaining: nat)
    requires w < |s.workers| && s.mutex.None? && best >= -1
    requires Exec(c, s, w, acts) == Some(Held(s, w, Busiest(|s.slots|, best, remaining)))
    ensures Exec(c, s, w, acts + [ScanBusiest])
         == Some(if best == -1 || remaining < c.minSteal || |s.slots| >= MAX_WORKERS then Gone(s, w)
                 else Held(s, w, Chosen(best)))
  {
    ExecShape(c, s, w, acts);
    var h := Held(s, w, Busiest(|s.slots|, best, remaining));
    assert h.workers[w].pc == Busiest(|s.slots|, best, remaining);
    var t := Do(c, h, w, ScanBusiest);
    assert t.workers == s.workers[w := s.workers[w].(pc := t.workers[w].pc)];
    ExecAgain(c, s, w, acts, h, ScanBusiest);
  }

  /** The state after a split, with the mutex released. */
  ghost function AfterSplit(s: State, w: nat, v: nat): State
    requires w < |s.workers| && v < |s.slots| && |s.progressSlots| == MAX_WORKERS && |s.slots| < MAX_WORKERS
  {
    var le := s.slots[v].liveEnd;
    var split := SplitPoint(s.slots[v].writePos, le);
    var m := MirrorTailIn(
      MirrorVictimIn(Tables(s.chunks, s.live, s.progressSlots, s.rows), s.slots[v].start, split), split, le);
    State(s.slots[v := s.slots[v].(liveEnd := split)]
            + [Slot(split, split, le, true, false, w,
                    if |m.progressSlots| == MAX_WORKERS then m.progressSlots[|s.slots|] else -1)],
          s.workers[w := Worker(|s.slots|, split, le, 0, false, Streaming)],
          None, s.file, s.downloaded, m.chunks, m.live, m.progressSlots, m.rows)
  }

  /** The state in the middle of a split: cut, and not yet mirrored. */
  ghost function Cut(s: State, w: nat, v: nat): State
    requires w < |s.workers| && v < |s.slots|
  {
    var le := s.slots[v].liveEnd;
    var split := SplitPoint(s.slots[v].writePos, le);
    s.(mutex := Some(w),
       slots := s.slots[v := s.slots[v].(liveEnd := split)] + [Slot(split, split, le, true, false, w, -1)],
       workers := s.workers[w := Worker(|s.slots|, split, le, 0, false, Appended(v, split, le))])
  }

  /** The state just after the shrink. */
  ghost function Shrunken(s: State, w: nat, v: nat): State
    requires w < |s.workers| && v < |s.slots|
  {
    var le := s.slots[v].liveEnd;
    var split := SplitPoint(s.slots[v].writePos, le);
    s.(mutex := Some(w), slots := s.slots[v := s.slots[v].(liveEnd := split)],
       workers := s.workers[w := s.workers[w].(pc := Shrunk(v, split, le))])
  }

  lemma ShrinkSteps(c: Config, s: State, w: nat, v: nat, acts: seq<Action>)
    requires w < |s.workers| && v < |s.slots| < MAX_WORKERS && c.splits
    requires Exec(c, s, w, acts) == Some(Held(s, w, Chosen(v)))
    ensures Exec(c, s, w, acts + [RereadPos, ShrinkVictim]) == Some(Shrunken(s, w, v))
  {
    ExecShape(c, s, w, acts);
    var t0 := Held(s, w, Chosen(v));
    assert t0.workers[w].pc == Chosen(v);
    ExecAgain(c, s, w, acts, t0, RereadPos);
    ExecShape(c, s, w, acts + [RereadPos]);
    var t1 := Do(c, t0, w, RereadPos);
    ExecAgain(c, s, w, acts + [RereadPos], t1, ShrinkVictim);
    assert acts + [RereadPos] + [ShrinkVictim] == acts + [RereadPos, ShrinkVictim];
    assert Do(c, t1, w, ShrinkVictim).workers == Shrunken(s, w, v).workers;
  }

  lemma CutSteps(c: Config, s: State, w: nat, v: nat, acts: seq<Action>)
    requires w < |s.workers| && v < |s.slots| < MAX_WORKERS && c.splits
    requires Exec(c, s, w, acts) == Some(Held(s, w, Chosen(v)))
    ensures Exec(c, s, w, acts + [RereadPos, ShrinkVictim, AppendSlot]) == Some(Cut(s, w, v))
  {
    ShrinkSteps(c, s, w, v, acts);
    var done := acts + [RereadPos, ShrinkVictim];
    var t2 := Shrunken(s, w, v);
    ExecShape(c, s, w, done);
    ExecAgain(c, s, w, done, t2, AppendSlot);
    assert done + [AppendSlot] == acts + [RereadPos, ShrinkVictim, AppendSlot];
    assert Do(c, t2, w, AppendSlot).workers == Cut(s, w, v).workers;
  }

  /** The five steps of a split, one after the other. */
  lemma SplitSteps(c: Config, s: State, w: nat, v: nat, acts: seq<Action>)
    requires w < |s.workers| && v < |s.slots| < MAX_WORKERS == |s.progressSlots| && s.mutex.None? && c.splits
    requires |s.chunks| <= |s.slots|
    requires Exec(c, s, w, acts) == Some(Held(s, w, Chosen(v)))
    ensures Exec(c, s, w, acts + [RereadPos, ShrinkVictim, AppendSlot] + [MirrorVictim, MirrorTail])
         == Some(AfterSplit(s, w, v))
  {
    CutSteps(c, s, w, v, acts);
    var done := acts + [RereadPos, ShrinkVictim, AppendSlot];
    ExecShape(c, s, w, done);
    var t3 := Cut(s, w, v);
    assert t3.workers[w].pc.Appended?;
    ExecAgain(c, s, w, done, t3, MirrorVictim);
    ExecShape(c, s, w, done + [MirrorVictim]);
    var t4 := Do(c, t3, w, MirrorVictim);
    ExecAgain(c, s, w, done + [MirrorVictim], t4, MirrorTail);
    var t5 := Do(c, t4, w, MirrorTail);
    assert done + [MirrorVictim] + [MirrorTail] == done + [MirrorVictim, MirrorTail];
    MirroredSplit(c, s, w, v, t4);
  }

  lemma MirroredSplit(c: Config, s: State, w: nat, v: nat, t: State)
    requires w < |s.workers| && v < |s.slots| < MAX_WORKERS == |s.progressSlots| && s.mutex.None?
    requires |s.chunks| <= |s.slots| && Shape(c, Cut(s, w, v)) && Can(c, Cut(s, w, v), w, MirrorVictim)
    requires t == Do(c, Cut(s, w, v), w, MirrorVictim) && Shape(c, t) && Can(c, t, w, MirrorTail)
    ensures Do(c, t, w, MirrorTail) == AfterSplit(s, w, v)
  {
    assert Do(c, t, w, MirrorTail).workers == AfterSplit(s, w, v).workers;
    assert Do(c, t, w, MirrorTail).slots == AfterSplit(s, w, v).slots;
  }
}
