/** Runs in which each steal happens in one go: the pool slots, the chunk table and the
    database rows describe the same intervals. */
module TransferAtomic {
  import opened Common
  import opened Transfer
  import opened TransferSafety
  import opened TransferCoverage
  import opened TransferClaims

  ghost predicate Atomic(c: Config) {
    c.Valid() && c.atomicSteals
  }

  ghost predicate TightSlot(s: State, i: int) {
    0 <= i < |s.slots| && s.slots[i].start < s.slots[i].liveEnd
  }

  ghost predicate TightThief(c: Config, s: State, w: int) {
    && 0 <= w < |s.workers|
    && match s.workers[w].pc
       case Busiest(_, best, remaining) =>
         best >= 0 ==> best < |s.slots| && remaining == s.slots[best].liveEnd - s.slots[best].writePos
       case Chosen(v) => v < |s.slots| && c.minSteal <= s.slots[v].liveEnd - s.slots[v].writePos
       case Reread(v, wp) => v < |s.slots| && wp == s.slots[v].writePos && c.minSteal <= s.slots[v].liveEnd - wp
       case Shrunk(v, split, le) => split < le
       case Appended(v, split, le) => split < le
       case Between(v, split, le) => split < le
       case _ => true
  }

  /** Where chunk `i` ends: with its slot, except that a victim's chunk keeps the tail until
      the split callback shrinks it. */
  function ChunkEnd(s: State, i: nat): nat
    requires i < |s.slots|
  {
    if s.mutex.Some? && s.mutex.value < |s.workers| &&
       (s.workers[s.mutex.value].pc.Shrunk? || s.workers[s.mutex.value].pc.Appended?) &&
       s.workers[s.mutex.value].pc.victim == i
    then s.workers[s.mutex.value].pc.le
    else s.slots[i].liveEnd
  }

  ghost predicate TightChunk(s: State, i: int) {
    0 <= i < |s.chunks| == |s.rows| && i < |s.slots| && s.chunks[i].end == s.rows[i].end == ChunkEnd(s, i)
  }

  ghost predicate Tight(c: Config, s: State) {
    && (forall i :: 0 <= i < |s.slots| ==> TightSlot(s, i))
    && (forall w :: 0 <= w < |s.workers| ==> TightThief(c, s, w))
    && (c.freshPlan ==> forall i :: 0 <= i < |s.chunks| ==> TightChunk(s, i))
  }

  // ----- preservation -----

  lemma NoThief(c: Config, s: State, w: nat)
    requires Shape(c, s) && s.mutex.None? && w < |s.workers|
    ensures !s.workers[w].pc.Holding() && TightThief(c, s, w)
  {
  }

  /** A worker streaming into its own slot, nobody holding the mutex. */
  lemma OwnerTight(c: Config, s: State, w: nat, a: Action)
    requires Atomic(c) && Safe(c, s) && Tight(c, s) && Can(c, s, w, a)
    requires s.workers[w].pc.Owns() && !s.workers[w].pc.Holding()
    ensures Tight(c, Do(c, s, w, a))
  {
    var s' := Do(c, s, w, a);
    StepShape(c, s, w, a);
    assert s.mutex.None?;
    var j := s.workers[w].slot;
    assert WorkerAt(c, s, w) && TightSlot(s, j);
    forall i | 0 <= i < |s'.slots| ensures TightSlot(s', i) { assert TightSlot(s, i); }
    forall x | 0 <= x < |s'.workers| ensures TightThief(c, s', x) { NoThief(c, s', x); }
    if c.freshPlan {
      forall i | 0 <= i < |s'.chunks| ensures TightChunk(s', i) { assert TightChunk(s, i); }
    }
  }

  /** Looking for a victim changes no slot. */
  lemma LookStep(c: Config, s: State, s': State, w: nat)
    requires Shape(c, s) && Tight(c, s) && w < |s.workers| == |s'.workers|
    requires s'.slots == s.slots && s'.chunks == s.chunks && s'.rows == s.rows && |s.rows| == |s.chunks|
    requires s'.workers == s.workers[w := s'.workers[w]] && s'.workers[w].slot == s.workers[w].slot
    requires s.mutex.None? || s.mutex == Some(w)
    requires s'.mutex.None? || s'.mutex == Some(w)
    requires forall pc :: pc == s.workers[w].pc || pc == s'.workers[w].pc ==>
      !pc.Owns() && !pc.Shrunk? && !pc.Appended?
    requires TightThief(c, s', w)
    ensures Tight(c, s')
  {
    forall i | 0 <= i < |s'.slots| ensures TightSlot(s', i) { assert TightSlot(s, i); }
    forall x | 0 <= x < |s'.workers| ensures TightThief(c, s', x) {
      if x != w { assert !s.workers[x].pc.Holding(); }
    }
    if c.freshPlan {
      forall i | 0 <= i < |s'.chunks| ensures TightChunk(s', i) { assert TightChunk(s, i); }
    }
  }

  lemma LookTight(c: Config, s: State, w: nat, a: Action)
    requires Atomic(c) && Safe(c, s) && Tight(c, s) && Can(c, s, w, a)
    requires a.Lock? || a.ScanOrphan? || a.ScanBusiest? || a.RereadPos?
    ensures Tight(c, Do(c, s, w, a))
  {
    if a.ScanOrphan? {
      OrphanTight(c, s, w);
    } else if a.ScanBusiest? {
      BusiestTight(c, s, w);
    } else {
      assert TightThief(c, s, w);
      LookStep(c, s, Do(c, s, w, a), w);
    }
  }

  lemma BusiestTight(c: Config, s: State, w: nat)
    requires Atomic(c) && Safe(c, s) && Tight(c, s) && Can(c, s, w, ScanBusiest)
    ensures Tight(c, Do(c, s, w, ScanBusiest))
  {
    assert TightThief(c, s, w);
    LookStep(c, s, Do(c, s, w, ScanBusiest), w);
  }

  lemma OrphanTight(c: Config, s: State, w: nat)
    requires Atomic(c) && Safe(c, s) && Tight(c, s) && Can(c, s, w, ScanOrphan)
    ensures Tight(c, Do(c, s, w, ScanOrphan))
  {
    if s.workers[w].pc.next < |s.slots| { NoOrphans(c, s, s.workers[w].pc.next); }
    assert TightThief(c, s, w);
    LookStep(c, s, Do(c, s, w, ScanOrphan), w);
  }

  /** A split leaves both parts nonempty. */
  lemma ShrinkTight(c: Config, s: State, w: nat)
    requires Atomic(c) && Safe(c, s) && Claims(c, s) && Tight(c, s) && Can(c, s, w, ShrinkVictim)
    ensures Tight(c, Do(c, s, w, ShrinkVictim))
  {
    var s' := Do(c, s, w, ShrinkVictim);
    StepShape(c, s, w, ShrinkVictim);
    assert ThiefAt(c, s, w) && TightThief(c, s, w);
    var Reread(v, wp) := s.workers[w].pc;
    assert SlotAt(c, s, v);
    SplitExact(wp, s.slots[v].liveEnd);
    forall i | 0 <= i < |s'.slots| ensures TightSlot(s', i) { assert TightSlot(s, i); }
    forall x | 0 <= x < |s'.workers| ensures TightThief(c, s', x) {
      if x != w { assert !s.workers[x].pc.Holding(); }
    }
    if c.freshPlan {
      forall i | 0 <= i < |s'.chunks| ensures TightChunk(s', i) { assert TightChunk(s, i); }
    }
  }

  lemma AppendTight(c: Config, s: State, w: nat)
    requires Atomic(c) && Safe(c, s) && Claims(c, s) && Tight(c, s) && Can(c, s, w, AppendSlot)
    ensures Tight(c, Do(c, s, w, AppendSlot))
  {
    var s' := Do(c, s, w, AppendSlot);
    StepShape(c, s, w, AppendSlot);
    assert TightThief(c, s, w);
    forall i | 0 <= i < |s'.slots| ensures TightSlot(s', i) {
      if i < |s.slots| { assert TightSlot(s, i); }
    }
    forall x | 0 <= x < |s'.workers| ensures TightThief(c, s', x) {
      if x != w { assert !s.workers[x].pc.Holding(); }
    }
    if c.freshPlan {
      forall i | 0 <= i < |s'.chunks| ensures TightChunk(s', i) { assert TightChunk(s, i); }
    }
  }

  /** Starts of nonempty, mutually apart slots are distinct. */
  lemma StartsDiffer(c: Config, s: State, i: nat, j: nat)
    requires c.Valid() && Tiled(c, s) && c.freshPlan && Tight(c, s) && i < |s.slots| && j < |s.slots| && i != j
    ensures s.slots[i].start != s.slots[j].start
  {
    assert TightSlot(s, i) && TightSlot(s, j);
    if i < j {
      assert Apart(Span(s.slots[i]), Span(s.slots[j]));
    } else {
      assert Apart(Span(s.slots[j]), Span(s.slots[i]));
    }
  }

  /** The split callback finds the victim's own chunk, and only it. */
  lemma MirrorHitsVictim(c: Config, s: State, v: nat)
    requires c.Valid() && Tiled(c, s) && Claims(c, s) && Tight(c, s) && c.freshPlan && v < |s.chunks| <= |s.slots|
    ensures FirstAt(s.chunks, s.slots[v].start) == v
    ensures forall i :: 0 <= i < |s.rows| == |s.chunks| && i != v ==> s.rows[i].start != s.slots[v].start
  {
    var j := FirstAt(s.chunks, s.slots[v].start);
    assert s.chunks[v].start == s.slots[v].start;
    if j != v { StartsDiffer(c, s, j, v); }
    forall i | 0 <= i < |s.rows| == |s.chunks| && i != v ensures s.rows[i].start != s.slots[v].start {
      assert ChunkAt(c, s, i);
      StartsDiffer(c, s, i, v);
    }
  }

  lemma MirrorVictimChunks(c: Config, s: State, w: nat)
    requires Atomic(c) && Safe(c, s) && Tiled(c, s) && Claims(c, s) && Tight(c, s) && Can(c, s, w, MirrorVictim)
    requires c.freshPlan
    ensures var s' := Do(c, s, w, MirrorVictim); forall i :: 0 <= i < |s'.chunks| ==> TightChunk(s', i)
  {
    var s' := Do(c, s, w, MirrorVictim);
    assert ThiefAt(c, s, w);
    var v := s.workers[w].pc.victim;
    MirrorHitsVictim(c, s, v);
    assert ChunkAt(c, s, v);
    forall i | 0 <= i < |s'.chunks| ensures TightChunk(s', i) { assert TightChunk(s, i); }
  }

  lemma MirrorVictimTight(c: Config, s: State, w: nat)
    requires Atomic(c) && Safe(c, s) && Tiled(c, s) && Claims(c, s) && Tight(c, s) && Can(c, s, w, MirrorVictim)
    ensures Tight(c, Do(c, s, w, MirrorVictim))
  {
    var s' := Do(c, s, w, MirrorVictim);
    StepShape(c, s, w, MirrorVictim);
    assert TightThief(c, s, w) && ThiefAt(c, s, w);
    forall i | 0 <= i < |s'.slots| ensures TightSlot(s', i) { assert TightSlot(s, i); }
    forall x | 0 <= x < |s'.workers| ensures TightThief(c, s', x) {
      if x != w { assert !s.workers[x].pc.Holding(); }
    }
    if c.freshPlan { MirrorVictimChunks(c, s, w); }
  }

  lemma MirrorTailTight(c: Config, s: State, w: nat)
    requires Atomic(c) && Safe(c, s) && Claims(c, s) && Tight(c, s) && Can(c, s, w, MirrorTail)
    ensures Tight(c, Do(c, s, w, MirrorTail))
  {
    var s' := Do(c, s, w, MirrorTail);
    StepShape(c, s, w, MirrorTail);
    assert ThiefAt(c, s, w);
    forall i | 0 <= i < |s'.slots| ensures TightSlot(s', i) { assert TightSlot(s, i); }
    forall x | 0 <= x < |s'.workers| ensures TightThief(c, s', x) {
      if x != w { assert !s.workers[x].pc.Holding(); }
    }
    if c.freshPlan {
      forall i | 0 <= i < |s'.chunks| ensures TightChunk(s', i) {
        if i < |s.chunks| { assert TightChunk(s, i); }
      }
    }
  }

  lemma SaveTight(c: Config, s: State, j: nat, v: nat)
    requires Shape(c, s) && Tight(c, s) && j < |s.chunks|
    ensures Tight(c, DoSave(s, j, v))
  {
    var s' := DoSave(s, j, v);
    forall i | 0 <= i < |s'.slots| ensures TightSlot(s', i) { assert TightSlot(s, i); }
    forall x | 0 <= x < |s'.workers| ensures TightThief(c, s', x) { assert TightThief(c, s, x); }
    if c.freshPlan {
      forall i | 0 <= i < |s'.chunks| ensures TightChunk(s', i) { assert TightChunk(s, i); }
    }
  }

  lemma InitTight(c: Config, s: State)
    requires c.Valid() && Init(c, s)
    ensures Tight(c, s)
  {
    forall i | 0 <= i < |s.slots| ensures TightSlot(s, i) {
    }
    if c.freshPlan {
      forall i | 0 <= i < |s.chunks| ensures TightChunk(s, i) {
        assert s.slots[i].progress == i;
      }
    }
  }

  lemma NextTight(c: Config, s: State, l: Label, s': State)
    requires Atomic(c) && Safe(c, s) && Tiled(c, s) && Claims(c, s) && Tight(c, s) && Next(c, s, l, s')
    ensures Tight(c, s')
  {
    match l
    case Save(j, v) => SaveTight(c, s, j, v);
    case Act(w, a) =>
      if a.ShrinkVictim? {
        ShrinkTight(c, s, w);
      } else if a.AppendSlot? {
        AppendTight(c, s, w);
      } else if a.MirrorVictim? {
        MirrorVictimTight(c, s, w);
      } else if a.MirrorTail? {
        MirrorTailTight(c, s, w);
      } else if a.Lock? || a.ScanOrphan? || a.ScanBusiest? || a.RereadPos? {
        LookTight(c, s, w, a);
      } else {
        OwnerTight(c, s, w, a);
      }
  }

  lemma {:induction false} RunTight(c: Config, run: seq<State>, labels: seq<Label>, n: nat)
    requires Atomic(c) && IsRun(c, run, labels) && n < |run|
    ensures Safe(c, run[n]) && Tiled(c, run[n]) && Claims(c, run[n]) && Tight(c, run[n])
  {
    RunClaims(c, run, labels, n);
    if n == 0 {
      InitTight(c, run[0]);
    } else {
      RunTight(c, run, labels, n - 1);
      NextTight(c, run[n - 1], labels[n - 1], run[n]);
    }
  }

  // ----- what the tables say -----

  /** The plan is the whole file, as for a fresh download. */
  ghost predicate WholeFile(c: Config) {
    forall k: nat :: k < |c.content| ==> Planned(c, k)
  }

  ghost predicate Planned(c: Config, k: nat) {
    exists p :: 0 <= p < |c.plan| && In(k, c.plan[p])
  }

  ghost predicate RowsCover(c: Config, s: State) {
    forall k: nat :: k < |c.content| ==> InSomeRow(s, k)
  }

  /** Whenever no steal is under way, slots, chunk table and rows are the same list of
      nonempty, pairwise disjoint intervals with distinct starts, at most MAX_WORKERS of
      them; they cover the file if the plan did; and each live counter trails its slot by one
      callback at most. */
  lemma TablesAgree(c: Config, run: seq<State>, labels: seq<Label>, n: nat)
    requires Atomic(c) && c.freshPlan && IsRun(c, run, labels) && n < |run| && run[n].mutex.None?
    ensures var s := run[n];
      && |s.chunks| == |s.slots| == |s.rows| == |s.live| <= MAX_WORKERS
      && (forall i :: 0 <= i < |s.slots| ==>
            && s.chunks[i] == Chunk(s.slots[i].start, s.slots[i].liveEnd)
            && s.rows[i] == Row(s.slots[i].start, s.slots[i].liveEnd, s.rows[i].saved)
            && s.slots[i].start < s.slots[i].liveEnd
            && s.live[i] <= s.slots[i].writePos - s.slots[i].start <= s.live[i] + c.maxCallback)
      && (forall i, j :: 0 <= i < j < |s.slots| ==>
            && s.slots[i].start != s.slots[j].start
            && (s.slots[i].liveEnd <= s.slots[j].start || s.slots[j].liveEnd <= s.slots[i].start))
      && (WholeFile(c) ==> forall k: nat :: k < |c.content| ==> InSomeSlot(s, k))
  {
    RunTight(c, run, labels, n);
    var s := run[n];
    forall i | 0 <= i < |s.slots|
      ensures s.chunks[i] == Chunk(s.slots[i].start, s.slots[i].liveEnd)
      ensures s.rows[i] == Row(s.slots[i].start, s.slots[i].liveEnd, s.rows[i].saved)
      ensures s.slots[i].start < s.slots[i].liveEnd
      ensures s.live[i] <= s.slots[i].writePos - s.slots[i].start <= s.live[i] + c.maxCallback
    {
      assert TightChunk(s, i) && TightSlot(s, i) && ChunkAt(c, s, i) && LinkAt(c, s, i) && SlotAt(c, s, i);
      assert WorkerAt(c, s, s.slots[i].owner);
    }
    forall i, j | 0 <= i < j < |s.slots|
      ensures s.slots[i].start != s.slots[j].start
      ensures s.slots[i].liveEnd <= s.slots[j].start || s.slots[j].liveEnd <= s.slots[i].start
    {
      assert TightSlot(s, i) && TightSlot(s, j);
      assert Apart(Span(s.slots[i]), Span(s.slots[j]));
    }
    if WholeFile(c) {
      forall k: nat | k < |c.content| ensures InSomeSlot(s, k) { WholeIsCovered(c, s, k); }
    }
  }

  ghost predicate InSomeSlot(s: State, k: nat) {
    exists i :: 0 <= i < |s.slots| && s.slots[i].start <= k < s.slots[i].liveEnd
  }

  lemma WholeIsCovered(c: Config, s: State, k: nat)
    requires Tiled(c, s) && WholeFile(c) && k < |c.content| && s.mutex.None?
    ensures InSomeSlot(s, k)
  {
    assert Planned(c, k);
    var p :| 0 <= p < |c.plan| && In(k, c.plan[p]);
    assert Covered(s, k);
    var i :| 0 <= i < |s.slots| && In(k, Span(s.slots[i]));
  }

  /** The rows cover the file in every state of a run except between the two statements that
      persist a split; a crash there, and only there, loses the stolen tail. */
  lemma RowsCoverOutsideSplit(c: Config, run: seq<State>, labels: seq<Label>, n: nat)
    requires Atomic(c) && c.freshPlan && WholeFile(c) && IsRun(c, run, labels) && n < |run|
    ensures RowsCover(c, run[n]) <==> !BetweenStatements(run[n])
  {
    RunTight(c, run, labels, n);
    var s := run[n];
    if w :| 0 <= w < |s.workers| && s.workers[w].pc.Between? {
      TailInNoRow(c, s, w);
      assert WorkerAt(c, s, w) && ThiefAt(c, s, w);
      assert !InSomeRow(s, s.workers[w].pc.split);
    } else {
      forall k: nat | k < |c.content| ensures InSomeRow(s, k) {
        assert Planned(c, k);
        var p :| 0 <= p < |c.plan| && In(k, c.plan[p]);
        assert Covered(s, k);
        ByteInTables(c, s, k);
      }
    }
  }

  /** Between the two statements that persist a split, no byte of the tail is in any row. */
  lemma TailInNoRow(c: Config, s: State, w: nat)
    requires c.Valid() && Safe(c, s) && Tiled(c, s) && Claims(c, s) && Tight(c, s) && c.freshPlan
    requires w < |s.workers| && s.workers[w].pc.Between?
    ensures s.workers[w].pc.split < s.workers[w].pc.le <= |c.content|
    ensures forall k: nat :: s.workers[w].pc.split <= k < s.workers[w].pc.le ==> !InSomeRow(s, k)
  {
    assert ThiefAt(c, s, w) && TightThief(c, s, w) && WorkerAt(c, s, w);
    var tail := |s.slots| - 1;
    assert SlotAt(c, s, tail);
    forall k: nat | s.workers[w].pc.split <= k < s.workers[w].pc.le ensures !InSomeRow(s, k) {
      assert In(k, Span(s.slots[tail]));
      forall j | 0 <= j < |s.rows| ensures !(s.rows[j].start <= k < s.rows[j].end) {
        assert TightChunk(s, j) && ChunkAt(c, s, j);
        assert Apart(Span(s.slots[j]), Span(s.slots[tail]));
      }
    }
  }
}
