/** What the chunk table, its live counters and its database rows promise while a run is
    under way: nobody ever claims a byte that is not already correct on disk, and the
    chunks never lose a planned byte. */
module TransferClaims {
  import opened Common
  import opened Transfer
  import opened TransferSafety
  import opened TransferCoverage

  /** Bytes of slot `i` already in `write_pos` but not yet in its chunk counter. */
  function Lag(i: int, t: Slot, k: Worker): nat {
    if k.slot == i && !t.exhausted && (k.pc.PosCounted? || k.pc.TotalCounted?) then k.pc.writable else 0
  }

  /** The counter of chunk `j` and the row of chunk `j` claim only correct bytes. */
  ghost predicate ChunkAt(c: Config, s: State, j: int) {
    && 0 <= j < |s.chunks| == |s.live| == |s.rows|
    && Good(c, s.file, s.chunks[j].start, s.chunks[j].start + s.live[j])
    && s.rows[j].start == s.chunks[j].start
    && s.chunks[j].start <= s.chunks[j].end <= |c.content| && s.rows[j].start <= s.rows[j].end <= |c.content|
    && Good(c, s.file, s.rows[j].start, s.rows[j].start + s.rows[j].saved)
  }

  /** Slot `i` and its chunk: the chunk begins at or before the slot and reaches at least as
      far, all it has received is correct, and its counter trails `write_pos` by one
      callback at most. */
  ghost predicate LinkAt(c: Config, s: State, i: int) {
    && 0 <= i < |s.slots| && s.slots[i].owner < |s.workers|
    && var t, p := s.slots[i], s.slots[i].progress;
       p >= 0 ==>
         && p < |s.chunks| == |s.live| == |s.rows|
         && s.chunks[p].start <= t.start
         && Good(c, s.file, s.chunks[p].start, t.writePos)
         && s.chunks[p].start + s.live[p] + Lag(i, t, s.workers[t.owner]) == t.writePos
         && t.liveEnd <= s.chunks[p].end && t.liveEnd <= s.rows[p].end
  }

  /** Number of slots that have a chunk: the tail a thief has just appended has none yet. */
  function Mirrored(s: State): int {
    |s.slots| - (if s.mutex.Some? && s.mutex.value < |s.workers| &&
                    (s.workers[s.mutex.value].pc.Appended? || s.workers[s.mutex.value].pc.Between?)
                 then 1 else 0)
  }

  /** Between the cut and the shrinking of the chunk, the victim's chunk still holds the tail. */
  ghost predicate VictimChunk(s: State, pc: Pc) {
    pc.Shrunk? || pc.Appended? ==>
      pc.victim < |s.chunks| == |s.rows| && pc.le <= s.chunks[pc.victim].end && pc.le <= s.rows[pc.victim].end
  }

  ghost predicate Claims(c: Config, s: State) {
    && (forall j :: 0 <= j < |s.chunks| ==> ChunkAt(c, s, j))
    && (forall i :: 0 <= i < |s.slots| ==> LinkAt(c, s, i))
    && (forall i, j :: 0 <= i < j < |s.slots| && s.slots[i].progress >= 0 ==>
          s.slots[i].progress != s.slots[j].progress)
    && (c.splits ==>
          |s.chunks| == Mirrored(s) && forall i :: 0 <= i < |s.chunks| ==> s.slots[i].progress == i)
    && (c.freshPlan ==> forall i :: 0 <= i < |s.chunks| && i < |s.slots| ==> s.chunks[i].start == s.slots[i].start)
    && (s.mutex.Some? && s.mutex.value < |s.workers| ==> VictimChunk(s, s.workers[s.mutex.value].pc))
    && (!c.splits ==> forall w :: 0 <= w < |s.workers| ==>
          var pc := s.workers[w].pc; !pc.Reread? && !pc.Shrunk? && !pc.Appended? && !pc.Between?)
  }

  /** What slot `i` answers for: from the start of its chunk, once it has one, to its end. */
  function Home(s: State, i: nat): Interval
    requires i < |s.slots|
  {
    var p := s.slots[i].progress;
    Interval(if 0 <= p < |s.chunks| then s.chunks[p].start else s.slots[i].start, s.slots[i].liveEnd)
  }

  /** With splits, no byte has two homes. */
  ghost predicate Homes(c: Config, s: State) {
    c.splits ==>
      && (forall i, j :: 0 <= i < j < |s.slots| ==> Apart(Home(s, i), Home(s, j)))
      && (forall i :: 0 <= i < |s.slots| ==> Apart(Home(s, i), Pending(s)))
  }

  // ----- preservation -----

  /** A step that leaves file, chunks, rows and slots alone, and nobody's lag. */
  lemma QuietStep(c: Config, s: State, s': State, w: nat)
    requires Shape(c, s) && Shape(c, s') && Claims(c, s) && w < |s.workers|
    requires s'.file == s.file && s'.chunks == s.chunks && s'.live == s.live && s'.rows == s.rows
    requires s'.slots == s.slots && |s'.workers| == |s.workers|
    requires s'.workers == s.workers[w := s'.workers[w]]
    requires s'.workers[w].slot == s.workers[w].slot
    requires forall i, t :: Lag(i, t, s'.workers[w]) == Lag(i, t, s.workers[w])
    requires Mirrored(s') == Mirrored(s)
    requires s'.mutex.Some? ==> VictimChunk(s', s'.workers[s'.mutex.value].pc)
    requires !c.splits ==> var pc := s'.workers[w].pc; !pc.Reread? && !pc.Shrunk? && !pc.Appended? && !pc.Between?
    ensures Claims(c, s')
  {
    forall j | 0 <= j < |s'.chunks| ensures ChunkAt(c, s', j) { assert ChunkAt(c, s, j); }
    forall i | 0 <= i < |s'.slots| ensures LinkAt(c, s', i) { assert LinkAt(c, s, i); }
  }

  lemma FileClaims(c: Config, s: State, off: nat, n: nat)
    requires Claims(c, s) && off + n <= |c.content| == |s.file|
    ensures Claims(c, s.(file := WriteAt(s.file, off, c.content[off..off + n])))
  {
    var s' := s.(file := WriteAt(s.file, off, c.content[off..off + n]));
    WriteKeepsGood(c, s.file, off, n);
    forall j | 0 <= j < |s'.chunks| ensures ChunkAt(c, s', j) { assert ChunkAt(c, s, j); }
    forall i | 0 <= i < |s'.slots| ensures LinkAt(c, s', i) { assert LinkAt(c, s, i); }
  }

  lemma StreamClaims(c: Config, s: State, w: nat, a: Action)
    requires Safe(c, s) && Claims(c, s) && Can(c, s, w, a) && (a.Deliver? || a.CountBytes?)
    ensures Claims(c, Do(c, s, w, a))
  {
    StepShape(c, s, w, a);
    QuietStep(c, s, Do(c, s, w, a), w);
  }

  lemma EndClaims(c: Config, s: State, w: nat, a: Action)
    requires Safe(c, s) && Claims(c, s) && Can(c, s, w, a) && (a.CountTotal? || a.Stop? || a.Test?)
    ensures Claims(c, Do(c, s, w, a))
  {
    StepShape(c, s, w, a);
    QuietStep(c, s, Do(c, s, w, a), w);
  }

  lemma LookClaims(c: Config, s: State, w: nat, a: Action)
    requires Safe(c, s) && Claims(c, s) && Can(c, s, w, a) && (a.Lock? || a.ScanOrphan?)
    ensures Claims(c, Do(c, s, w, a))
  {
    StepShape(c, s, w, a);
    if a.ScanOrphan? && s.workers[w].pc.next < |s.slots| { NoOrphans(c, s, s.workers[w].pc.next); }
    QuietStep(c, s, Do(c, s, w, a), w);
  }

  lemma ChooseClaims(c: Config, s: State, w: nat, a: Action)
    requires Safe(c, s) && Claims(c, s) && Can(c, s, w, a) && (a.ScanBusiest? || a.RereadPos?)
    ensures Claims(c, Do(c, s, w, a))
  {
    if a.ScanBusiest? { ScanClaims(c, s, w); } else { RereadClaims(c, s, w); }
  }

  lemma ScanClaims(c: Config, s: State, w: nat)
    requires Safe(c, s) && Claims(c, s) && Can(c, s, w, ScanBusiest)
    ensures Claims(c, Do(c, s, w, ScanBusiest))
  {
    StepShape(c, s, w, ScanBusiest);
    QuietStep(c, s, Do(c, s, w, ScanBusiest), w);
  }

  lemma RereadClaims(c: Config, s: State, w: nat)
    requires Safe(c, s) && Claims(c, s) && Can(c, s, w, RereadPos)
    ensures Claims(c, Do(c, s, w, RereadPos))
  {
    StepShape(c, s, w, RereadPos);
    QuietStep(c, s, Do(c, s, w, RereadPos), w);
  }

  lemma WriteClaims(c: Config, s: State, w: nat, n: nat, next: Pc)
    requires Safe(c, s) && Claims(c, s) && w < |s.workers| && s.workers[w].pc.Loaded?
    requires s.workers[w].base + s.workers[w].bytesDone + n <= |c.content|
    requires next.Written? || next.Ended?
    requires Shape(c, DoWrite(c, s, w, n, next))
    ensures Claims(c, DoWrite(c, s, w, n, next))
  {
    var off := s.workers[w].base + s.workers[w].bytesDone;
    FileClaims(c, s, off, n);
    var m := s.(file := WriteAt(s.file, off, c.content[off..off + n]));
    QuietStep(c, m, DoWrite(c, s, w, n, next), w);
  }

  lemma CountPosLinks(c: Config, s: State, w: nat)
    requires Safe(c, s) && Claims(c, s) && Can(c, s, w, CountPos)
    ensures var s' := Do(c, s, w, CountPos); forall i :: 0 <= i < |s'.slots| ==> LinkAt(c, s', i)
  {
    var s' := Do(c, s, w, CountPos);
    assert WorkerAt(c, s, w);
    forall i | 0 <= i < |s'.slots| ensures LinkAt(c, s', i) {
      assert LinkAt(c, s, i) && SlotAt(c, s, i);
    }
  }

  /** Raising `write_pos` over bytes already written. */
  lemma CountPosClaims(c: Config, s: State, w: nat)
    requires Safe(c, s) && Claims(c, s) && Can(c, s, w, CountPos)
    ensures Claims(c, Do(c, s, w, CountPos))
  {
    StepShape(c, s, w, CountPos);
    var s' := Do(c, s, w, CountPos);
    assert WorkerAt(c, s, w);
    forall j | 0 <= j < |s'.chunks| ensures ChunkAt(c, s', j) { assert ChunkAt(c, s, j); }
    CountPosLinks(c, s, w);
  }

  lemma CountChunkLinks(c: Config, s: State, w: nat)
    requires Safe(c, s) && Claims(c, s) && Can(c, s, w, CountChunk)
    ensures var s' := Do(c, s, w, CountChunk); forall i :: 0 <= i < |s'.slots| ==> LinkAt(c, s', i)
  {
    var s' := Do(c, s, w, CountChunk);
    assert WorkerAt(c, s, w);
    forall i | 0 <= i < |s'.slots| ensures LinkAt(c, s', i) {
      assert LinkAt(c, s, i) && SlotAt(c, s, i);
    }
  }

  lemma CountChunkChunks(c: Config, s: State, w: nat)
    requires Safe(c, s) && Claims(c, s) && Can(c, s, w, CountChunk)
    ensures var s' := Do(c, s, w, CountChunk); forall j :: 0 <= j < |s'.chunks| ==> ChunkAt(c, s', j)
  {
    var s' := Do(c, s, w, CountChunk);
    assert WorkerAt(c, s, w) && LinkAt(c, s, s.workers[w].slot);
    forall j | 0 <= j < |s'.chunks| ensures ChunkAt(c, s', j) { assert ChunkAt(c, s, j); }
  }

  /** Raising a chunk counter over bytes already behind `write_pos`. */
  lemma CountChunkClaims(c: Config, s: State, w: nat)
    requires Safe(c, s) && Claims(c, s) && Can(c, s, w, CountChunk)
    ensures Claims(c, Do(c, s, w, CountChunk))
  {
    StepShape(c, s, w, CountChunk);
    var s' := Do(c, s, w, CountChunk);
    var i0 := s.workers[w].slot;
    assert WorkerAt(c, s, w) && LinkAt(c, s, i0);
    CountChunkChunks(c, s, w);
    CountChunkLinks(c, s, w);
  }

  lemma MarkDoneClaims(c: Config, s: State, w: nat)
    requires Safe(c, s) && Claims(c, s) && Can(c, s, w, MarkDone)
    ensures Claims(c, Do(c, s, w, MarkDone))
  {
    StepShape(c, s, w, MarkDone);
    var s' := Do(c, s, w, MarkDone);
    SameChunks(c, s, s');
    forall i | 0 <= i < |s'.slots| ensures LinkAt(c, s', i) { MarkDoneLink(c, s, w, i); }
  }

  lemma MarkDoneLink(c: Config, s: State, w: nat, i: nat)
    requires Safe(c, s) && Claims(c, s) && Can(c, s, w, MarkDone) && i < |s.slots|
    ensures LinkAt(c, Do(c, s, w, MarkDone), i)
  {
    assert WorkerAt(c, s, w) && LinkAt(c, s, i) && SlotAt(c, s, i);
  }

  lemma ShrinkLinks(c: Config, s: State, w: nat)
    requires c.Valid() && Safe(c, s) && Claims(c, s) && Can(c, s, w, ShrinkVictim)
    ensures var s' := Do(c, s, w, ShrinkVictim); forall i :: 0 <= i < |s'.slots| ==> LinkAt(c, s', i)
  {
    var s' := Do(c, s, w, ShrinkVictim);
    assert ThiefAt(c, s, w);
    var Reread(v, wp) := s.workers[w].pc;
    assert SlotAt(c, s, v);
    SplitExact(wp, s.slots[v].liveEnd);
    forall i | 0 <= i < |s'.slots| ensures LinkAt(c, s', i) {
      assert LinkAt(c, s, i);
    }
  }

  lemma SameChunks(c: Config, s: State, s': State)
    requires Claims(c, s) && s'.chunks == s.chunks && s'.rows == s.rows && s'.live == s.live && s'.file == s.file
    ensures forall j :: 0 <= j < |s'.chunks| ==> ChunkAt(c, s', j)
  {
    forall j | 0 <= j < |s'.chunks| ensures ChunkAt(c, s', j) { assert ChunkAt(c, s, j); }
  }

  lemma ShrinkClaims(c: Config, s: State, w: nat)
    requires c.Valid() && Safe(c, s) && Claims(c, s) && Can(c, s, w, ShrinkVictim)
    ensures Claims(c, Do(c, s, w, ShrinkVictim))
  {
    StepShape(c, s, w, ShrinkVictim);
    SameChunks(c, s, Do(c, s, w, ShrinkVictim));
    ShrinkLinks(c, s, w);
    ShrinkVictimChunk(c, s, w);
  }

  lemma ShrinkVictimChunk(c: Config, s: State, w: nat)
    requires c.Valid() && Safe(c, s) && Claims(c, s) && Can(c, s, w, ShrinkVictim)
    ensures var s' := Do(c, s, w, ShrinkVictim); VictimChunk(s', s'.workers[w].pc) && s'.mutex == Some(w)
  {
    var Reread(v, wp) := s.workers[w].pc;
    assert LinkAt(c, s, v);
  }

  lemma AppendClaims(c: Config, s: State, w: nat)
    requires Safe(c, s) && Claims(c, s) && Can(c, s, w, AppendSlot)
    ensures Claims(c, Do(c, s, w, AppendSlot))
  {
    StepShape(c, s, w, AppendSlot);
    var s' := Do(c, s, w, AppendSlot);
    SameChunks(c, s, s');
    forall i | 0 <= i < |s'.slots| ensures LinkAt(c, s', i) { AppendLink(c, s, w, i); }
  }

  lemma AppendLink(c: Config, s: State, w: nat, i: nat)
    requires Safe(c, s) && Claims(c, s) && Can(c, s, w, AppendSlot) && i <= |s.slots|
    ensures LinkAt(c, Do(c, s, w, AppendSlot), i)
  {
    if i < |s.slots| { assert LinkAt(c, s, i) && SlotAt(c, s, i); }
  }

  /** A chunk that starts where the victim's slot starts, and is not the victim's, has nothing
      left past the split. */
  lemma FoundIsSpent(c: Config, s: State, w: nat, f: nat)
    requires Safe(c, s) && Claims(c, s) && Homes(c, s) && c.splits
    requires w < |s.workers| && s.workers[w].pc.Appended?
    requires var v := s.workers[w].pc.victim;
      v < |s.slots| && f < |s.chunks| && s.chunks[f].start == s.slots[v].start
    ensures f < |s.slots| && s.slots[f].liveEnd <= s.workers[w].pc.split
  {
    assert ThiefAt(c, s, w) && s.mutex == Some(w);
    var v := s.workers[w].pc.victim;
    var tail := |s.slots| - 1;
    assert SlotAt(c, s, v) && LinkAt(c, s, v);
    HomesApart(c, s, f, tail);
    if f != v { HomesApart(c, s, f, v); }
  }

  lemma HomesApart(c: Config, s: State, i: nat, j: nat)
    requires Homes(c, s) && c.splits && i < |s.slots| && j < |s.slots| && i != j
    ensures Apart(Home(s, i), Home(s, j))
  {
    if i < j {
      assert Apart(Home(s, i), Home(s, j));
    } else {
      assert Apart(Home(s, j), Home(s, i));
    }
  }

  lemma MirrorVictimLinks(c: Config, s: State, w: nat)
    requires Safe(c, s) && Claims(c, s) && Homes(c, s) && Can(c, s, w, MirrorVictim)
    ensures var s' := Do(c, s, w, MirrorVictim); forall i :: 0 <= i < |s'.slots| ==> LinkAt(c, s', i)
  {
    var s' := Do(c, s, w, MirrorVictim);
    forall i | 0 <= i < |s'.slots| ensures LinkAt(c, s', i) {
      MirrorVictimLink(c, s, w, i);
    }
  }

  lemma MirrorVictimLink(c: Config, s: State, w: nat, i: nat)
    requires Safe(c, s) && Claims(c, s) && Homes(c, s) && Can(c, s, w, MirrorVictim) && i < |s.slots|
    ensures LinkAt(c, Do(c, s, w, MirrorVictim), i)
  {
    if i < |s.chunks| {
      MirrorLinkOld(c, s, w, i);
    } else {
      assert LinkAt(c, s, i);
      TailHasNoChunk(c, s, w, i);
    }
  }

  lemma TailHasNoChunk(c: Config, s: State, w: nat, i: nat)
    requires Safe(c, s) && Claims(c, s) && Can(c, s, w, MirrorVictim) && |s.chunks| <= i < |s.slots|
    ensures s.slots[i].progress < 0
  {
    assert s.mutex == Some(w) && ThiefAt(c, s, w);
  }

  lemma MirrorLinkOld(c: Config, s: State, w: nat, i: nat)
    requires Safe(c, s) && Claims(c, s) && Homes(c, s) && Can(c, s, w, MirrorVictim) && i < |s.slots| && i < |s.chunks|
    ensures LinkAt(c, Do(c, s, w, MirrorVictim), i)
  {
    var at, split := s.slots[s.workers[w].pc.victim].start, s.workers[w].pc.split;
    assert c.splits && LinkAt(c, s, i) && ChunkAt(c, s, i);
    if s.chunks[i].start == at { FoundIsSpent(c, s, w, i); }
    ShrunkLink(c, s, Do(c, s, w, MirrorVictim), w, at, split, i);
  }

  /** A cut at or past the slot's end leaves its link as it was. */
  lemma ShrunkLink(c: Config, s: State, s': State, w: nat, at: nat, split: nat, i: nat)
    requires LinkAt(c, s, i) && i < |s.chunks| == |s.live| == |s.rows| && s.slots[i].progress == i && w < |s.workers|
    requires s.chunks[i].start == s.rows[i].start && (s.chunks[i].start == at ==> s.slots[i].liveEnd <= split)
    requires s'.slots == s.slots && s'.live == s.live && s'.file == s.file && |s'.workers| == |s.workers|
    requires s'.workers == s.workers[w := s'.workers[w]] && !s.workers[w].pc.InCallback() && !s'.workers[w].pc.InCallback()
    requires s'.chunks == ShrinkChunk(s.chunks, at, split)
    requires s'.rows == s.rows || s'.rows == UpdateRange(s.rows, at, split)
    ensures LinkAt(c, s', i)
  {
  }

  lemma ShrunkChunk(c: Config, s: State, s': State, at: nat, split: nat, j: nat)
    requires ChunkAt(c, s, j) && at <= split <= |c.content|
    requires s'.file == s.file && s'.live == s.live && s'.chunks == ShrinkChunk(s.chunks, at, split)
    requires s'.rows == s.rows || s'.rows == UpdateRange(s.rows, at, split)
    ensures ChunkAt(c, s', j)
  {
  }

  lemma MirrorVictimChunks(c: Config, s: State, w: nat)
    requires Safe(c, s) && Claims(c, s) && Can(c, s, w, MirrorVictim)
    ensures var s' := Do(c, s, w, MirrorVictim); forall j :: 0 <= j < |s'.chunks| ==> ChunkAt(c, s', j)
  {
    var s' := Do(c, s, w, MirrorVictim);
    forall j | 0 <= j < |s'.chunks| ensures ChunkAt(c, s', j) { MirrorVictimChunk(c, s, w, j); }
  }

  lemma MirrorVictimChunk(c: Config, s: State, w: nat, j: nat)
    requires Safe(c, s) && Claims(c, s) && Can(c, s, w, MirrorVictim) && j < |s.chunks|
    ensures ChunkAt(c, Do(c, s, w, MirrorVictim), j)
  {
    assert ThiefAt(c, s, w) && SlotAt(c, s, |s.slots| - 1) && ChunkAt(c, s, j);
    var Appended(v, split, le) := s.workers[w].pc;
    ShrunkChunk(c, s, Do(c, s, w, MirrorVictim), s.slots[v].start, split, j);
  }

  lemma MirrorVictimClaims(c: Config, s: State, w: nat)
    requires Safe(c, s) && Claims(c, s) && Homes(c, s) && Can(c, s, w, MirrorVictim)
    ensures Claims(c, Do(c, s, w, MirrorVictim))
  {
    StepShape(c, s, w, MirrorVictim);
    var s' := Do(c, s, w, MirrorVictim);
    assert ThiefAt(c, s, w);
    MirrorVictimChunks(c, s, w);
    MirrorVictimLinks(c, s, w);
  }

  lemma MirrorTailLinks(c: Config, s: State, w: nat)
    requires Safe(c, s) && Claims(c, s) && Can(c, s, w, MirrorTail)
    ensures var s' := Do(c, s, w, MirrorTail); forall i :: 0 <= i < |s'.slots| ==> LinkAt(c, s', i)
  {
    var s' := Do(c, s, w, MirrorTail);
    forall i | 0 <= i < |s'.slots| ensures LinkAt(c, s', i) { MirrorTailLink(c, s, w, i); }
  }

  lemma MirrorTailLink(c: Config, s: State, w: nat, i: nat)
    requires Safe(c, s) && Claims(c, s) && Can(c, s, w, MirrorTail) && i < |s.slots|
    ensures LinkAt(c, Do(c, s, w, MirrorTail), i)
  {
    assert ThiefAt(c, s, w) && WorkerAt(c, s, w) && LinkAt(c, s, i) && SlotAt(c, s, i);
  }

  lemma MirrorTailChunks(c: Config, s: State, w: nat)
    requires Safe(c, s) && Claims(c, s) && Can(c, s, w, MirrorTail)
    ensures var s' := Do(c, s, w, MirrorTail); forall j :: 0 <= j < |s'.chunks| ==> ChunkAt(c, s', j)
  {
    var s' := Do(c, s, w, MirrorTail);
    forall j | 0 <= j < |s'.chunks| ensures ChunkAt(c, s', j) { MirrorTailChunk(c, s, w, j); }
  }

  lemma MirrorTailChunk(c: Config, s: State, w: nat, j: nat)
    requires Safe(c, s) && Claims(c, s) && Can(c, s, w, MirrorTail) && j <= |s.chunks|
    ensures ChunkAt(c, Do(c, s, w, MirrorTail), j)
  {
    if j < |s.chunks| {
      assert ChunkAt(c, s, j);
    } else {
      assert ThiefAt(c, s, w) && SlotAt(c, s, |s.slots| - 1);
    }
  }

  lemma MirrorTailClaims(c: Config, s: State, w: nat)
    requires Safe(c, s) && Claims(c, s) && Can(c, s, w, MirrorTail)
    ensures Claims(c, Do(c, s, w, MirrorTail))
  {
    StepShape(c, s, w, MirrorTail);
    var s' := Do(c, s, w, MirrorTail);
    assert ThiefAt(c, s, w) && WorkerAt(c, s, w) && SlotAt(c, s, |s.slots| - 1);
    MirrorTailChunks(c, s, w);
    MirrorTailLinks(c, s, w);
  }

  lemma SaveClaims(c: Config, s: State, j: nat, v: nat)
    requires Shape(c, s) && Claims(c, s) && j < |s.chunks| && v <= s.live[j]
    ensures Claims(c, DoSave(s, j, v))
  {
    var s' := DoSave(s, j, v);
    assert ChunkAt(c, s, j);
    forall x | 0 <= x < |s'.chunks| ensures ChunkAt(c, s', x) { assert ChunkAt(c, s, x); }
    forall i | 0 <= i < |s'.slots| ensures LinkAt(c, s', i) { assert LinkAt(c, s, i); }
  }

  lemma InitLink(c: Config, s: State, i: nat)
    requires InitPool(c, s) && i < |s.slots|
    ensures LinkAt(c, s, i)
    ensures s.slots[i].start == s.chunks[s.slots[i].progress].start + s.live[s.slots[i].progress]
  {
  }

  lemma InitClaims(c: Config, s: State)
    requires c.Valid() && Init(c, s)
    ensures Claims(c, s)
  {
    forall j | 0 <= j < |s.chunks| ensures ChunkAt(c, s, j) {
    }
    forall i | 0 <= i < |s.slots|
      ensures LinkAt(c, s, i)
      ensures c.freshPlan ==> s.chunks[i].start == s.slots[i].start
    {
      InitLink(c, s, i);
    }
  }

  lemma NextClaims(c: Config, s: State, l: Label, s': State)
    requires c.Valid() && Safe(c, s) && Claims(c, s) && Homes(c, s) && Next(c, s, l, s')
    ensures Claims(c, s')
  {
    match l
    case Save(j, v) => SaveClaims(c, s, j, v);
    case Act(w, a) =>
      match a
      case Deliver(_) => StreamClaims(c, s, w, a);
      case WriteFile =>
        StepShape(c, s, w, a);
        WriteClaims(c, s, w, s.workers[w].pc.writable, Written(s.workers[w].pc.total, s.workers[w].pc.writable));
      case WriteFails(p) =>
        StepShape(c, s, w, a);
        WriteClaims(c, s, w, p, Ended(false));
      case CountBytes => StreamClaims(c, s, w, a);
      case CountPos => CountPosClaims(c, s, w);
      case CountTotal => EndClaims(c, s, w, a);
      case CountChunk => CountChunkClaims(c, s, w);
      case Stop(_) => EndClaims(c, s, w, a);
      case Test(_) => EndClaims(c, s, w, a);
      case MarkDone => MarkDoneClaims(c, s, w);
      case Lock => LookClaims(c, s, w, a);
      case ScanOrphan => LookClaims(c, s, w, a);
      case ScanBusiest => ChooseClaims(c, s, w, a);
      case RereadPos => ChooseClaims(c, s, w, a);
      case ShrinkVictim => ShrinkClaims(c, s, w);
      case AppendSlot => AppendClaims(c, s, w);
      case MirrorVictim => MirrorVictimClaims(c, s, w);
      case MirrorTail => MirrorTailClaims(c, s, w);
  }

  // ----- homes -----

  lemma SameHomes(c: Config, s: State, s': State)
    requires Homes(c, s) && |s'.slots| == |s.slots| && Pending(s') == Pending(s)
    requires c.splits ==> forall i :: 0 <= i < |s.slots| ==> Home(s', i) == Home(s, i)
    ensures Homes(c, s')
  {
    if c.splits {
      forall i, j | 0 <= i < j < |s'.slots| ensures Apart(Home(s', i), Home(s', j)) {
        assert Apart(Home(s, i), Home(s, j));
      }
      forall i | 0 <= i < |s'.slots| ensures Apart(Home(s', i), Pending(s')) {
        assert Apart(Home(s, i), Pending(s));
      }
    }
  }

  lemma ShrinkHomes(c: Config, s: State, w: nat)
    requires c.Valid() && Safe(c, s) && Claims(c, s) && Homes(c, s) && Can(c, s, w, ShrinkVictim)
    ensures Homes(c, Do(c, s, w, ShrinkVictim))
  {
    var s' := Do(c, s, w, ShrinkVictim);
    assert ThiefAt(c, s, w) && s.mutex == Some(w);
    var Reread(v, wp) := s.workers[w].pc;
    assert SlotAt(c, s, v) && LinkAt(c, s, v);
    SplitExact(wp, s.slots[v].liveEnd);
    if c.splits {
      forall i, j | 0 <= i < j < |s'.slots| ensures Apart(Home(s', i), Home(s', j)) {
        assert Apart(Home(s, i), Home(s, j));
      }
      forall i | 0 <= i < |s'.slots| ensures Apart(Home(s', i), Pending(s')) { ShrunkHome(c, s, w, i); }
    }
  }

  lemma ShrunkHome(c: Config, s: State, w: nat, i: nat)
    requires c.Valid() && Safe(c, s) && Claims(c, s) && Homes(c, s) && Can(c, s, w, ShrinkVictim)
    requires c.splits && i < |s.slots|
    ensures Apart(Home(Do(c, s, w, ShrinkVictim), i), Pending(Do(c, s, w, ShrinkVictim)))
  {
    ShrinkThief(c, s, w);
    var v := s.workers[w].pc.victim;
    assert s.mutex == Some(w) && LinkAt(c, s, v);
    if i != v { HomesApart(c, s, i, v); }
  }

  lemma AppendHomes(c: Config, s: State, w: nat)
    requires Safe(c, s) && Claims(c, s) && Homes(c, s) && Can(c, s, w, AppendSlot)
    ensures Homes(c, Do(c, s, w, AppendSlot))
  {
    var s' := Do(c, s, w, AppendSlot);
    var tail := |s.slots|;
    assert s.mutex == Some(w) && Home(s', tail) == Pending(s) && Pending(s') == Interval(0, 0);
    if c.splits {
      forall i, j | 0 <= i < j < |s'.slots| ensures Apart(Home(s', i), Home(s', j)) {
        assert Home(s', i) == Home(s, i);
        if j < tail { assert Apart(Home(s, i), Home(s, j)); } else { assert Apart(Home(s, i), Pending(s)); }
      }
      forall i | 0 <= i < |s'.slots| ensures Apart(Home(s', i), Pending(s')) {}
    }
  }

  lemma MirrorHome(c: Config, s: State, w: nat, a: Action, i: nat)
    requires Safe(c, s) && Claims(c, s) && c.splits && Can(c, s, w, a) && (a.MirrorVictim? || a.MirrorTail?)
    requires i < |s.slots|
    ensures Home(Do(c, s, w, a), i) == Home(s, i)
  {
    assert s.mutex == Some(w) && ThiefAt(c, s, w) && LinkAt(c, s, i);
    if a.MirrorTail? && i == s.workers[w].slot { assert WorkerAt(c, s, w); }
  }

  lemma MirrorHomes(c: Config, s: State, w: nat, a: Action)
    requires Safe(c, s) && Claims(c, s) && Homes(c, s) && Can(c, s, w, a) && (a.MirrorVictim? || a.MirrorTail?)
    ensures Homes(c, Do(c, s, w, a))
  {
    var s' := Do(c, s, w, a);
    assert s.mutex == Some(w) && ThiefAt(c, s, w) && WorkerAt(c, s, w);
    if c.splits {
      forall i | 0 <= i < |s.slots| ensures Home(s', i) == Home(s, i) { MirrorHome(c, s, w, a, i); }
      SameHomes(c, s, s');
    }
  }

  lemma InitHomes(c: Config, s: State)
    requires Init(c, s)
    ensures Homes(c, s)
  {
  }

  lemma NextHomes(c: Config, s: State, l: Label, s': State)
    requires c.Valid() && Safe(c, s) && Claims(c, s) && Homes(c, s) && Next(c, s, l, s')
    ensures Homes(c, s')
  {
    match l
    case Save(_, _) => SameHomes(c, s, s');
    case Act(w, a) =>
      if a.ShrinkVictim? {
        ShrinkHomes(c, s, w);
      } else if a.AppendSlot? {
        AppendHomes(c, s, w);
      } else if a.MirrorVictim? || a.MirrorTail? {
        MirrorHomes(c, s, w, a);
      } else {
        if s.workers[w].pc.Owns() {
          OwnerStepSpans(c, s, w, a);
        } else {
          ThiefStepSpans(c, s, w, a);
        }
        QuietHomes(c, s, w, a);
      }
  }

  /** Steps that move no interval and no chunk. */
  lemma QuietHomes(c: Config, s: State, w: nat, a: Action)
    requires Safe(c, s) && Homes(c, s) && Can(c, s, w, a) && SameSpans(s, Do(c, s, w, a))
    requires !a.ShrinkVictim? && !a.AppendSlot? && !a.MirrorVictim? && !a.MirrorTail?
    ensures Homes(c, Do(c, s, w, a))
  {
    var s' := Do(c, s, w, a);
    forall i | 0 <= i < |s.slots| ensures Home(s', i) == Home(s, i) {
      assert Span(s'.slots[i]) == Span(s.slots[i]);
      if a.ScanOrphan? && s.workers[w].pc.next < |s.slots| { NoOrphans(c, s, s.workers[w].pc.next); }
    }
    SameHomes(c, s, s');
  }

  lemma {:induction false} RunClaims(c: Config, run: seq<State>, labels: seq<Label>, n: nat)
    requires c.Valid() && IsRun(c, run, labels) && n < |run|
    ensures Safe(c, run[n]) && Tiled(c, run[n]) && Claims(c, run[n]) && Homes(c, run[n])
  {
    RunTiled(c, run, labels, n);
    if n == 0 {
      InitClaims(c, run[0]);
      InitHomes(c, run[0]);
    } else {
      RunClaims(c, run, labels, n - 1);
      NextClaims(c, run[n - 1], labels[n - 1], run[n]);
      NextHomes(c, run[n - 1], labels[n - 1], run[n]);
    }
  }

  // ----- what follows in every interleaving -----

  /** In every state of every run, each live counter and each saved row claims only bytes
      that are correct on disk. */
  lemma ClaimedBytesAreCorrect(c: Config, run: seq<State>, labels: seq<Label>, n: nat, j: nat, k: nat)
    requires c.Valid() && IsRun(c, run, labels) && n < |run| && j < |run[n].chunks|
    ensures |run[n].file| == |c.content| && |run[n].live| == |run[n].rows| == |run[n].chunks|
    ensures run[n].chunks[j].start <= k < run[n].chunks[j].start + run[n].live[j] ==>
      k < |c.content| && run[n].file[k] == c.content[k]
    ensures run[n].rows[j].start <= k < run[n].rows[j].start + run[n].rows[j].saved ==>
      k < |c.content| && run[n].file[k] == c.content[k]
  {
    RunClaims(c, run, labels, n);
    assert ChunkAt(c, run[n], j);
  }

  ghost predicate BetweenStatements(s: State) {
    exists w :: 0 <= w < |s.workers| && s.workers[w].pc.Between?
  }

  ghost predicate InSomeChunk(s: State, k: nat) {
    exists j :: 0 <= j < |s.chunks| && s.chunks[j].start <= k < s.chunks[j].end
  }

  ghost predicate InSomeRow(s: State, k: nat) {
    exists j :: 0 <= j < |s.rows| && s.rows[j].start <= k < s.rows[j].end
  }

  /** A covered byte is in a chunk and in its row: its slot's own or, while a tail waits for
      its chunk, the victim's. */
  lemma ByteInTables(c: Config, s: State, k: nat)
    requires Safe(c, s) && Claims(c, s) && c.splits && Covered(s, k) && !BetweenStatements(s)
    ensures InSomeChunk(s, k) && InSomeRow(s, k)
  {
    if In(k, Pending(s)) {
      TailWithVictim(c, s, s.mutex.value, k);
    } else {
      var i :| 0 <= i < |s.slots| && In(k, Span(s.slots[i]));
      if i < |s.chunks| {
        SlotInTables(c, s, i, k);
      } else {
        assert !s.workers[s.mutex.value].pc.Between?;
        assert ThiefAt(c, s, s.mutex.value);
        TailWithVictim(c, s, s.mutex.value, k);
      }
    }
  }

  /** A tail without a chunk of its own is still in the victim's. */
  lemma TailWithVictim(c: Config, s: State, w: nat, k: nat)
    requires Safe(c, s) && Claims(c, s) && c.splits && w < |s.workers|
    requires s.workers[w].pc.Shrunk? || s.workers[w].pc.Appended?
    requires s.workers[w].pc.split <= k < s.workers[w].pc.le
    ensures InSomeChunk(s, k) && InSomeRow(s, k)
  {
    var v := s.workers[w].pc.victim;
    assert s.mutex == Some(w) && VictimChunk(s, s.workers[w].pc);
    assert ThiefAt(c, s, w) && ChunkAt(c, s, v) && LinkAt(c, s, v);
    assert s.chunks[v].start <= k < s.chunks[v].end && s.rows[v].start <= k < s.rows[v].end;
  }

  /** A slot's bytes are in its chunk and its row. */
  lemma SlotInTables(c: Config, s: State, i: nat, k: nat)
    requires Safe(c, s) && Claims(c, s) && c.splits && i < |s.chunks| && i < |s.slots| && In(k, Span(s.slots[i]))
    ensures InSomeChunk(s, k) && InSomeRow(s, k)
  {
    assert LinkAt(c, s, i) && ChunkAt(c, s, i);
    assert s.chunks[i].start <= k < s.chunks[i].end && s.rows[i].start <= k < s.rows[i].end;
  }

  /** Nothing correct is ever spoiled. */
  lemma {:induction false} RunKeepsGood(c: Config, run: seq<State>, labels: seq<Label>, n: nat, lo: nat, hi: int)
    requires c.Valid() && IsRun(c, run, labels) && n < |run| && Good(c, run[0].file, lo, hi)
    ensures Good(c, run[n].file, lo, hi)
  {
    if n > 0 {
      RunKeepsGood(c, run, labels, n - 1, lo, hi);
      assert Next(c, run[n - 1], labels[n - 1], run[n]);
      NextKeepsGood(c, run[n - 1], labels[n - 1], run[n], lo, hi);
    }
  }

  lemma NextKeepsGood(c: Config, s: State, l: Label, s': State, lo: nat, hi: int)
    requires Next(c, s, l, s') && Good(c, s.file, lo, hi)
    ensures Good(c, s'.file, lo, hi)
  {
    if l.Act? && (l.action.WriteFile? || l.action.WriteFails?) {
      var k := s.workers[l.w];
      var m := if l.action.WriteFile? then k.pc.writable else l.action.prefix;
      WriteKeepsGood(c, s.file, k.base + k.bytesDone, m);
    }
  }

  /** Slots and chunks are never taken away, and never move their starts. */
  lemma {:induction false} RunKeepsStarts(c: Config, run: seq<State>, labels: seq<Label>, n: nat)
    requires c.Valid() && IsRun(c, run, labels) && n < |run|
    ensures |run[n].slots| >= |run[0].slots| && |run[n].chunks| >= |run[0].chunks|
    ensures forall i :: 0 <= i < |run[0].slots| ==> run[n].slots[i].start == run[0].slots[i].start
    ensures forall j :: 0 <= j < |run[0].chunks| ==> run[n].chunks[j].start == run[0].chunks[j].start
  {
    if n > 0 {
      RunKeepsStarts(c, run, labels, n - 1);
      RunSafe(c, run, labels, n - 1);
      NextKeepsStarts(c, run[n - 1], labels[n - 1], run[n]);
    }
  }

  lemma NextKeepsStarts(c: Config, s: State, l: Label, s': State)
    requires Safe(c, s) && Next(c, s, l, s')
    ensures |s'.slots| >= |s.slots| && |s'.chunks| >= |s.chunks|
    ensures forall i :: 0 <= i < |s.slots| ==> s'.slots[i].start == s.slots[i].start
    ensures forall j :: 0 <= j < |s.chunks| ==> s'.chunks[j].start == s.chunks[j].start
  {
    if l.Act? {
      var a := l.action;
      if a.ShrinkVictim? || a.AppendSlot? {
        SplitKeepsStarts(c, s, l.w, a);
      } else if a.MirrorVictim? || a.MirrorTail? {
        MirrorKeepsStarts(c, s, l.w, a);
      } else {
        if s.workers[l.w].pc.Owns() { OwnerStepSpans(c, s, l.w, a); } else { ThiefStepSpans(c, s, l.w, a); }
        forall i | 0 <= i < |s.slots| ensures s'.slots[i].start == s.slots[i].start {
          assert Span(s'.slots[i]) == Span(s.slots[i]);
        }
      }
    }
  }

  lemma SplitKeepsStarts(c: Config, s: State, w: nat, a: Action)
    requires Shape(c, s) && Can(c, s, w, a) && (a.ShrinkVictim? || a.AppendSlot?)
    ensures var s' := Do(c, s, w, a);
      && |s'.slots| >= |s.slots| && s'.chunks == s.chunks
      && forall i :: 0 <= i < |s.slots| ==> s'.slots[i].start == s.slots[i].start
  {
  }

  lemma MirrorKeepsStarts(c: Config, s: State, w: nat, a: Action)
    requires Shape(c, s) && Can(c, s, w, a) && (a.MirrorVictim? || a.MirrorTail?)
    ensures var s' := Do(c, s, w, a);
      && |s'.slots| == |s.slots| && |s'.chunks| >= |s.chunks|
      && (forall i :: 0 <= i < |s.slots| ==> s'.slots[i].start == s.slots[i].start)
      && (forall j :: 0 <= j < |s.chunks| ==> s'.chunks[j].start == s.chunks[j].start)
  {
  }

  /** A resumed run, taken without splits, leaves the intervals of its tables alone. */
  lemma {:induction false} ResumeKeepsTables(c: Config, run: seq<State>, labels: seq<Label>, n: nat)
    requires c.Valid() && !c.splits && IsRun(c, run, labels) && n < |run|
    ensures run[n].chunks == run[0].chunks && |run[n].rows| == |run[0].rows|
    ensures forall j :: 0 <= j < |run[0].rows| ==>
      run[n].rows[j].start == run[0].rows[j].start && run[n].rows[j].end == run[0].rows[j].end
  {
    if n > 0 {
      ResumeKeepsTables(c, run, labels, n - 1);
      RunClaims(c, run, labels, n - 1);
      NextKeepsTables(c, run[n - 1], labels[n - 1], run[n]);
    }
  }

  lemma NextKeepsTables(c: Config, s: State, l: Label, s': State)
    requires !c.splits && Next(c, s, l, s') && Safe(c, s) && Claims(c, s)
    ensures s'.chunks == s.chunks && |s'.rows| == |s.rows|
    ensures forall j :: 0 <= j < |s.rows| ==> s'.rows[j].start == s.rows[j].start && s'.rows[j].end == s.rows[j].end
  {
  }

  /** The split callback looks its victim up by the slot's start, which includes the resume
      offset: in a table of disjoint chunks it shrinks the victim's chunk exactly when that
      offset is zero. Otherwise the chunk keeps the tail that is appended beside it. */
  lemma SplitFindsOnlyUnshiftedVictim(chunks: seq<Chunk>, j: nat, offset: nat, split: nat)
    requires j < |chunks| && chunks[j].start + offset < split < chunks[j].end
    requires forall i :: 0 <= i < |chunks| && i != j ==>
      chunks[i].start < chunks[i].end <= chunks[j].start || chunks[j].end <= chunks[i].start
    ensures ShrinkChunk(chunks, chunks[j].start + offset, split)[j].end == split <==> offset == 0
    ensures offset > 0 ==> ShrinkChunk(chunks, chunks[j].start + offset, split) == chunks
  {
    var f := FirstAt(chunks, chunks[j].start + offset);
  }
}
