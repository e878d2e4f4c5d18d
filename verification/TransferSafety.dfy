/** What every step of the transfer engine keeps, whatever the interleaving. */
module TransferSafety {
  import opened Common
  import opened Transfer

  // ----- the invariant -----

  /** Slot `i`, whose last taker is `k`. */
  ghost predicate SlotOk(c: Config, file: seq<Byte>, i: nat, t: Slot, k: Worker) {
    && t.start <= t.writePos <= |c.content|
    && t.start <= t.liveEnd <= |c.content|
    && Good(c, file, t.start, t.writePos)
    && (t.exhausted ==> !t.claimed && t.liveEnd <= t.writePos)
    && (!t.exhausted ==> t.claimed && k.slot == i && k.pc.Owns())
  }

  /** Worker `w`, pointing at slot `t`. */
  ghost predicate WorkerOk(c: Config, file: seq<Byte>, w: nat, k: Worker, t: Slot) {
    k.pc.Owns() ==>
      && t.owner == w && !t.exhausted
      && k.base == t.start
      && t.liveEnd <= k.reqEnd <= |c.content|
      && k.Position() == t.writePos
      && k.Reach() <= k.reqEnd
      && (k.pc.InCallback() ==> 1 <= k.pc.writable <= k.pc.total && k.pc.writable <= c.maxCallback)
      && (k.pc.Written? ==> Good(c, file, k.base + k.bytesDone, k.Reach()))
      && (k.pc.BytesCounted? ==> Good(c, file, t.writePos, t.writePos + k.pc.writable))
      && (k.pc.Passed? ==> t.liveEnd <= t.writePos)
  }

  /** Slot `t`, held by `k`, cannot be overrun before its `live_end` moves again. */
  ghost predicate Contained(t: Slot, k: Worker) {
    !t.exhausted && t.start < t.liveEnd && k.Reach() <= t.liveEnd
  }

  /** What a lock holder at `pc` knows about the slot `t` it looks at, held by `k`. */
  ghost predicate VictimOk(c: Config, pc: Pc, t: Slot, k: Worker) {
    match pc
    case Busiest(_, _, remaining) => remaining >= c.minSteal ==> Contained(t, k)
    case Chosen(_) => Contained(t, k)
    case Reread(_, wp) =>
      !t.exhausted && t.start <= wp <= t.liveEnd && t.start < t.liveEnd && wp <= t.writePos
    case Shrunk(_, split, le) =>
      !t.exhausted && t.start <= split == t.liveEnd <= le <= |c.content| && t.start < le
    case Appended(_, split, le) => t.start <= split == t.liveEnd <= le && t.start < le
    case Between(_, split, le) => t.start <= split == t.liveEnd <= le && t.start < le
    case _ => true
  }

  /** The slot a lock holder looks at, if any. */
  function Looking(pc: Pc): int {
    match pc
    case Busiest(_, best, _) => best
    case Chosen(v) => v
    case Reread(v, _) => v
    case Shrunk(v, _, _) => v
    case Appended(v, _, _) => v
    case Between(v, _, _) => v
    case _ => -1
  }

  /** The tail a thief has appended but not yet streamed is the last slot. */
  ghost predicate TailOk(slots: seq<Slot>, w: nat, k: Worker) {
    k.pc.Appended? || k.pc.Between? ==>
      && k.slot == |slots| - 1
      && k.pc.victim < |slots| - 1
      && slots[|slots| - 1] == Slot(k.pc.split, k.pc.split, k.pc.le, true, false, w, -1)
  }

  ghost predicate SlotAt(c: Config, s: State, i: int) {
    && 0 <= i < |s.slots| && s.slots[i].owner < |s.workers|
    && SlotOk(c, s.file, i, s.slots[i], s.workers[s.slots[i].owner])
  }

  ghost predicate WorkerAt(c: Config, s: State, w: int) {
    && 0 <= w < |s.workers| && s.workers[w].slot < |s.slots|
    && WorkerOk(c, s.file, w, s.workers[w], s.slots[s.workers[w].slot])
  }

  ghost predicate ThiefAt(c: Config, s: State, w: int) {
    && 0 <= w < |s.workers|
    && TailOk(s.slots, w, s.workers[w])
    && var v := Looking(s.workers[w].pc);
       v >= 0 ==>
         && v < |s.slots| && s.slots[v].owner < |s.workers|
         && VictimOk(c, s.workers[w].pc, s.slots[v], s.workers[s.slots[v].owner])
  }

  ghost predicate Safe(c: Config, s: State) {
    && Shape(c, s)
    && (forall i :: 0 <= i < |s.slots| ==> SlotAt(c, s, i))
    && (forall w :: 0 <= w < |s.workers| ==> WorkerAt(c, s, w))
    && (forall w :: 0 <= w < |s.workers| ==> ThiefAt(c, s, w))
  }

  // ----- small facts -----

  lemma WriteKeepsGood(c: Config, file: seq<Byte>, off: nat, n: nat)
    requires |file| == |c.content| && off + n <= |file|
    ensures var f := WriteAt(file, off, c.content[off..off + n]);
      && (forall lo: nat, hi: int :: Good(c, file, lo, hi) ==> Good(c, f, lo, hi))
      && Good(c, f, off, off + n)
  {
  }

  /** With the victim's position at or before its end, the 64-bit subtraction is exact and
      the split falls between them. */
  lemma SplitExact(wp: nat, le: nat)
    requires wp <= le < TWO64
    ensures SplitPoint(wp, le) == wp + (le - wp) / 2
    ensures wp <= SplitPoint(wp, le) <= le
  {
  }

  // ----- steps keep states well formed -----

  /** One worker moves on, on its slot; the slots keep owner and chunk, and it alone may take or drop the mutex. */
  lemma MoveShape(c: Config, s: State, s': State, w: nat)
    requires Shape(c, s) && w < |s.workers| == |s'.workers| && s'.workers == s.workers[w := s'.workers[w]]
    requires |s'.slots| == |s.slots| && forall i :: 0 <= i < |s.slots| ==>
      s'.slots[i].owner == s.slots[i].owner && s'.slots[i].progress == s.slots[i].progress
    requires s'.chunks == s.chunks && s'.rows == s.rows && |s'.live| == |s.live| && s'.progressSlots == s.progressSlots
    requires |s'.file| == |s.file| && s'.workers[w].slot == s.workers[w].slot && PcInRange(s, s'.workers[w].pc)
    requires s'.mutex == s.mutex || (s.mutex in {None, Some(w)} && s'.mutex in {None, Some(w)})
    requires s'.mutex == Some(w) <==> s'.workers[w].pc.Holding()
    ensures Shape(c, s')
  {
    forall x | 0 <= x < |s'.workers|
      ensures s'.workers[x].slot < |s'.slots| && PcInRange(s', s'.workers[x].pc)
      ensures s'.workers[x].pc.Holding() ==> s'.mutex == Some(x)
    {
    }
  }

  lemma CallbackShape(c: Config, s: State, w: nat, a: Action)
    requires Shape(c, s) && Can(c, s, w, a)
    requires a.Deliver? || a.WriteFile? || a.WriteFails?
    ensures Shape(c, Do(c, s, w, a))
  {
    MoveShape(c, s, Do(c, s, w, a), w);
  }

  lemma CountShape(c: Config, s: State, w: nat, a: Action)
    requires Shape(c, s) && Can(c, s, w, a)
    requires a.CountBytes? || a.CountPos? || a.CountTotal? || a.CountChunk?
    ensures Shape(c, Do(c, s, w, a))
  {
    MoveShape(c, s, Do(c, s, w, a), w);
  }

  lemma EndShape(c: Config, s: State, w: nat, a: Action)
    requires Shape(c, s) && Can(c, s, w, a)
    requires a.Stop? || a.Test? || a.MarkDone? || a.Lock?
    ensures Shape(c, Do(c, s, w, a))
  {
    MoveShape(c, s, Do(c, s, w, a), w);
  }

  lemma ScanShape(c: Config, s: State, w: nat, a: Action)
    requires Shape(c, s) && Can(c, s, w, a)
    requires a.ScanOrphan? || a.ScanBusiest? || a.RereadPos?
    ensures Shape(c, Do(c, s, w, a))
  {
    if a.ScanOrphan? { OrphanShape(c, s, w); } else { MoveShape(c, s, Do(c, s, w, a), w); }
  }

  lemma OrphanShape(c: Config, s: State, w: nat)
    requires Shape(c, s) && Can(c, s, w, ScanOrphan)
    ensures Shape(c, Do(c, s, w, ScanOrphan))
  {
  }

  lemma SplitShape(c: Config, s: State, w: nat, a: Action)
    requires Shape(c, s) && Can(c, s, w, a)
    requires a.ShrinkVictim? || a.AppendSlot?
    ensures Shape(c, Do(c, s, w, a))
  {
  }

  lemma MirrorShape(c: Config, s: State, w: nat, a: Action)
    requires Shape(c, s) && Can(c, s, w, a)
    requires a.MirrorVictim? || a.MirrorTail?
    ensures Shape(c, Do(c, s, w, a))
  {
  }

  lemma StepShape(c: Config, s: State, w: nat, a: Action)
    requires Shape(c, s) && Can(c, s, w, a)
    ensures Shape(c, Do(c, s, w, a))
  {
    if a.Deliver? || a.WriteFile? || a.WriteFails? {
      CallbackShape(c, s, w, a);
    } else if a.CountBytes? || a.CountPos? || a.CountTotal? || a.CountChunk? {
      CountShape(c, s, w, a);
    } else if a.Stop? || a.Test? || a.MarkDone? || a.Lock? {
      EndShape(c, s, w, a);
    } else if a.ScanOrphan? || a.ScanBusiest? || a.RereadPos? {
      ScanShape(c, s, w, a);
    } else if a.ShrinkVictim? || a.AppendSlot? {
      SplitShape(c, s, w, a);
    } else {
      MirrorShape(c, s, w, a);
    }
  }

  // ----- steps that touch one worker, and perhaps its own slot -----

  /** `t'` is `t` after some writing: only `write_pos` may have grown. */
  ghost predicate Grown(t: Slot, t': Slot) {
    t' == t.(writePos := t'.writePos) && t.writePos <= t'.writePos
  }

  /** A worker that owns its slot moves on; nobody else notices. */
  lemma OwnerStep(c: Config, s: State, s': State, w: nat)
    requires Safe(c, s) && Shape(c, s') && w < |s.workers|
    requires s'.file == s.file && s'.mutex == s.mutex
    requires |s'.workers| == |s.workers| && |s'.slots| == |s.slots|
    requires s'.workers == s.workers[w := s'.workers[w]]
    requires var k, k' := s.workers[w], s'.workers[w];
      && k.slot < |s.slots|
      && s'.slots == s.slots[k.slot := s'.slots[k.slot]]
      && Grown(s.slots[k.slot], s'.slots[k.slot])
      && k.pc.Owns() && k'.pc.Owns() && k'.slot == k.slot
      && !k.pc.Holding() && !k'.pc.Holding()
      && (k'.Reach() <= k.Reach() || k'.Reach() <= s.slots[k.slot].liveEnd)
      && SlotOk(c, s.file, k.slot, s'.slots[k.slot], k')
      && WorkerOk(c, s.file, w, k', s'.slots[k.slot])
    ensures Safe(c, s')
  {
    var k := s.workers[w];
    assert WorkerAt(c, s, w);
    forall i | 0 <= i < |s'.slots| ensures SlotAt(c, s', i) {
      assert SlotAt(c, s, i);
    }
    forall x | 0 <= x < |s'.workers| ensures WorkerAt(c, s', x) {
      assert WorkerAt(c, s, x);
    }
    forall x | 0 <= x < |s'.workers| ensures ThiefAt(c, s', x) {
      OwnerStepThief(c, s, s', w, x);
    }
  }

  lemma OwnerStepThief(c: Config, s: State, s': State, w: nat, x: nat)
    requires Safe(c, s) && w < |s.workers| && x < |s.workers|
    requires |s'.workers| == |s.workers| && |s'.slots| == |s.slots|
    requires s'.workers == s.workers[w := s'.workers[w]]
    requires var k, k' := s.workers[w], s'.workers[w];
      && k.slot < |s.slots|
      && s'.slots == s.slots[k.slot := s'.slots[k.slot]]
      && Grown(s.slots[k.slot], s'.slots[k.slot])
      && k.pc.Owns() && !k.pc.Holding() && !k'.pc.Holding()
      && (k'.Reach() <= k.Reach() || k'.Reach() <= s.slots[k.slot].liveEnd)
    ensures ThiefAt(c, s', x)
  {
    assert ThiefAt(c, s, x) && WorkerAt(c, s, w);
    var v := Looking(s.workers[x].pc);
    if v >= 0 {
      assert SlotAt(c, s, v);
    }
  }

  /** Writing server bytes at their own offset spoils nothing already correct. */
  lemma FileStep(c: Config, s: State, off: nat, n: nat)
    requires Safe(c, s) && off + n <= |c.content|
    ensures Safe(c, s.(file := WriteAt(s.file, off, c.content[off..off + n])))
    ensures Good(c, WriteAt(s.file, off, c.content[off..off + n]), off, off + n)
  {
    var s' := s.(file := WriteAt(s.file, off, c.content[off..off + n]));
    WriteKeepsGood(c, s.file, off, n);
    forall i | 0 <= i < |s'.slots| ensures SlotAt(c, s', i) {
      assert SlotAt(c, s, i);
    }
    forall x | 0 <= x < |s'.workers| ensures WorkerAt(c, s', x) {
      assert WorkerAt(c, s, x);
    }
    forall x | 0 <= x < |s'.workers| ensures ThiefAt(c, s', x) {
      assert ThiefAt(c, s, x);
    }
  }

  lemma DeliverSafe(c: Config, s: State, w: nat, n: nat)
    requires Safe(c, s) && Can(c, s, w, Deliver(n))
    ensures Safe(c, Do(c, s, w, Deliver(n)))
  {
    StepShape(c, s, w, Deliver(n));
    var k := s.workers[w];
    assert WorkerAt(c, s, w) && SlotAt(c, s, k.slot);
    OwnerStep(c, s, Do(c, s, w, Deliver(n)), w);
  }

  lemma WriteSafe(c: Config, s: State, w: nat)
    requires Safe(c, s) && Can(c, s, w, WriteFile)
    ensures Safe(c, Do(c, s, w, WriteFile))
  {
    var k := s.workers[w];
    StepShape(c, s, w, WriteFile);
    assert WorkerAt(c, s, w);
    StoredSafe(c, s, w, k.pc.writable, Written(k.pc.total, k.pc.writable));
  }

  /** Bytes of the server's at the worker's offset, and its next step. */
  lemma StoredSafe(c: Config, s: State, w: nat, n: nat, next: Pc)
    requires Safe(c, s) && w < |s.workers| && s.workers[w].pc.Loaded? && n <= s.workers[w].pc.writable
    requires s.workers[w].Reach() <= |c.content|
    requires next == Ended(false) || (next == Written(s.workers[w].pc.total, n) && n == s.workers[w].pc.writable)
    requires Shape(c, DoWrite(c, s, w, n, next))
    ensures Safe(c, DoWrite(c, s, w, n, next))
  {
    var k := s.workers[w];
    assert WorkerAt(c, s, w) && SlotAt(c, s, k.slot);
    var off := k.base + k.bytesDone;
    FileStep(c, s, off, n);
    var m := s.(file := WriteAt(s.file, off, c.content[off..off + n]));
    assert SlotAt(c, m, k.slot);
    OwnerStep(c, m, DoWrite(c, s, w, n, next), w);
  }

  lemma WriteFailsSafe(c: Config, s: State, w: nat, p: nat)
    requires Safe(c, s) && Can(c, s, w, WriteFails(p))
    ensures Safe(c, Do(c, s, w, WriteFails(p)))
  {
    StepShape(c, s, w, WriteFails(p));
    StoredSafe(c, s, w, p, Ended(false));
  }

  lemma CountBytesSafe(c: Config, s: State, w: nat)
    requires Safe(c, s) && Can(c, s, w, CountBytes)
    ensures Safe(c, Do(c, s, w, CountBytes))
  {
    StepShape(c, s, w, CountBytes);
    assert WorkerAt(c, s, w) && SlotAt(c, s, s.workers[w].slot);
    OwnerStep(c, s, Do(c, s, w, CountBytes), w);
  }

  lemma CountPosSafe(c: Config, s: State, w: nat)
    requires Safe(c, s) && Can(c, s, w, CountPos)
    ensures Safe(c, Do(c, s, w, CountPos))
  {
    StepShape(c, s, w, CountPos);
    assert WorkerAt(c, s, w) && SlotAt(c, s, s.workers[w].slot);
    OwnerStep(c, s, Do(c, s, w, CountPos), w);
  }

  lemma CountTotalSafe(c: Config, s: State, w: nat)
    requires Safe(c, s) && Can(c, s, w, CountTotal)
    ensures Safe(c, Do(c, s, w, CountTotal))
  {
    StepShape(c, s, w, CountTotal);
    assert WorkerAt(c, s, w) && SlotAt(c, s, s.workers[w].slot);
    OwnerStep(c, s, Do(c, s, w, CountTotal), w);
  }

  lemma CountChunkSafe(c: Config, s: State, w: nat)
    requires Safe(c, s) && Can(c, s, w, CountChunk)
    ensures Safe(c, Do(c, s, w, CountChunk))
  {
    StepShape(c, s, w, CountChunk);
    assert WorkerAt(c, s, w) && SlotAt(c, s, s.workers[w].slot);
    OwnerStep(c, s, Do(c, s, w, CountChunk), w);
  }

  lemma EndSafe(c: Config, s: State, w: nat, a: Action)
    requires Safe(c, s) && Can(c, s, w, a) && (a.Stop? || a.Test?)
    ensures Safe(c, Do(c, s, w, a))
  {
    StepShape(c, s, w, a);
    var k := s.workers[w];
    assert WorkerAt(c, s, w) && SlotAt(c, s, k.slot);
    OwnerStep(c, s, Do(c, s, w, a), w);
  }

  // ----- steps under the mutex -----

  /** A worker that owns nothing moves on: only what it knows of its victim is at stake. */
  lemma IdleStep(c: Config, s: State, s': State, w: nat)
    requires Safe(c, s) && Shape(c, s') && w < |s.workers|
    requires s'.file == s.file && s'.slots == s.slots
    requires |s'.workers| == |s.workers|
    requires s'.workers == s.workers[w := s'.workers[w]]
    requires var k, k' := s.workers[w], s'.workers[w];
      && !k.pc.Owns() && !k'.pc.Owns() && k'.slot == k.slot
    requires ThiefAt(c, s', w)
    ensures Safe(c, s')
  {
    forall i | 0 <= i < |s'.slots| ensures SlotAt(c, s', i) {
      assert SlotAt(c, s, i);
    }
    forall x | 0 <= x < |s'.workers| ensures WorkerAt(c, s', x) {
      assert WorkerAt(c, s, x);
    }
    forall x | 0 <= x < |s'.workers| ensures ThiefAt(c, s', x) {
      assert ThiefAt(c, s, x);
      var v := Looking(s.workers[x].pc);
      assert v >= 0 ==> SlotAt(c, s, v);
    }
  }

  /** Whoever does not hold the mutex has no victim. */
  lemma OthersHaveNoVictim(c: Config, s: State, s': State, w: nat)
    requires Shape(c, s) && (s.mutex == Some(w) || s.mutex.None?) && w < |s.workers| == |s'.workers|
    requires s'.workers == s.workers[w := s'.workers[w]]
    ensures forall x :: 0 <= x < |s'.workers| && x != w ==> ThiefAt(c, s', x)
  {
    forall x | 0 <= x < |s'.workers| && x != w ensures ThiefAt(c, s', x) {
      assert !s.workers[x].pc.Holding();
    }
  }

  lemma MarkDoneSafe(c: Config, s: State, w: nat)
    requires Safe(c, s) && Can(c, s, w, MarkDone)
    ensures Safe(c, Do(c, s, w, MarkDone))
  {
    StepShape(c, s, w, MarkDone);
    var k := s.workers[w];
    var s' := Do(c, s, w, MarkDone);
    assert WorkerAt(c, s, w) && SlotAt(c, s, k.slot);
    forall i | 0 <= i < |s'.slots| ensures SlotAt(c, s', i) {
      assert SlotAt(c, s, i);
    }
    forall x | 0 <= x < |s'.workers| ensures WorkerAt(c, s', x) {
      assert WorkerAt(c, s, x);
    }
    OthersHaveNoVictim(c, s, s', w);
  }

  lemma LockSafe(c: Config, s: State, w: nat)
    requires Safe(c, s) && Can(c, s, w, Lock)
    ensures Safe(c, Do(c, s, w, Lock))
  {
    StepShape(c, s, w, Lock);
    IdleStep(c, s, Do(c, s, w, Lock), w);
  }

  /** The orphan branch of `rebalance_pool_acquire` is never taken. */
  lemma NoOrphans(c: Config, s: State, i: nat)
    requires Safe(c, s) && i < |s.slots|
    ensures s.slots[i].exhausted || s.slots[i].claimed
  {
    assert SlotAt(c, s, i);
  }

  lemma ScanOrphanSafe(c: Config, s: State, w: nat)
    requires Safe(c, s) && Can(c, s, w, ScanOrphan)
    ensures Safe(c, Do(c, s, w, ScanOrphan))
  {
    StepShape(c, s, w, ScanOrphan);
    var i := s.workers[w].pc.next;
    if i < |s.slots| { NoOrphans(c, s, i); }
    IdleStep(c, s, Do(c, s, w, ScanOrphan), w);
  }

  /** A slot seen with at least `minSteal` bytes left cannot be overrun by the callback that
      may be in flight on it: that callback started at the position seen, and later ones clamp. */
  lemma SeenIsContained(c: Config, s: State, i: nat)
    requires c.Valid() && Safe(c, s) && i < |s.slots|
    requires var t := s.slots[i]; !t.exhausted && t.liveEnd - t.writePos >= c.minSteal
    ensures Contained(s.slots[i], s.workers[s.slots[i].owner])
  {
    assert SlotAt(c, s, i);
    assert WorkerAt(c, s, s.slots[i].owner);
  }

  lemma ScanOneThief(c: Config, s: State, w: nat)
    requires c.Valid() && Safe(c, s) && Can(c, s, w, ScanBusiest) && s.workers[w].pc.next < |s.slots|
    ensures ThiefAt(c, Do(c, s, w, ScanBusiest), w)
  {
    assert ThiefAt(c, s, w);
    var i := s.workers[w].pc.next;
    var t := s.slots[i];
    if !t.exhausted && t.liveEnd - t.writePos >= c.minSteal { SeenIsContained(c, s, i); }
  }

  lemma ScanOneSafe(c: Config, s: State, w: nat)
    requires c.Valid() && Safe(c, s) && Can(c, s, w, ScanBusiest) && s.workers[w].pc.next < |s.slots|
    ensures Safe(c, Do(c, s, w, ScanBusiest))
  {
    StepShape(c, s, w, ScanBusiest);
    ScanOneThief(c, s, w);
    IdleStep(c, s, Do(c, s, w, ScanBusiest), w);
  }

  lemma ScanBusiestSafe(c: Config, s: State, w: nat)
    requires c.Valid() && Safe(c, s) && Can(c, s, w, ScanBusiest)
    ensures Safe(c, Do(c, s, w, ScanBusiest))
  {
    if s.workers[w].pc.next < |s.slots| {
      ScanOneSafe(c, s, w);
    } else {
      StepShape(c, s, w, ScanBusiest);
      assert ThiefAt(c, s, w);
      IdleStep(c, s, Do(c, s, w, ScanBusiest), w);
    }
  }

  lemma RereadSafe(c: Config, s: State, w: nat)
    requires Safe(c, s) && Can(c, s, w, RereadPos)
    ensures Safe(c, Do(c, s, w, RereadPos))
  {
    StepShape(c, s, w, RereadPos);
    assert ThiefAt(c, s, w);
    var v := s.workers[w].pc.victim;
    assert SlotAt(c, s, v);
    assert WorkerAt(c, s, s.slots[v].owner);
    IdleStep(c, s, Do(c, s, w, RereadPos), w);
  }

  /** Moving a live end down keeps what is known of a slot and of whoever streams into it. */
  lemma ShrinkKeeps(c: Config, file: seq<Byte>, i: nat, t: Slot, k: Worker, w: nat, split: nat)
    requires t.start <= split <= t.liveEnd
    ensures SlotOk(c, file, i, t, k) ==> SlotOk(c, file, i, t.(liveEnd := split), k)
    ensures WorkerOk(c, file, w, k, t) ==> WorkerOk(c, file, w, k, t.(liveEnd := split))
  {
  }

  /** The victim may be cut at the point between its position and its end. */
  lemma ShrinkThief(c: Config, s: State, w: nat)
    requires c.Valid() && Safe(c, s) && Can(c, s, w, ShrinkVictim)
    ensures ThiefAt(c, Do(c, s, w, ShrinkVictim), w)
    ensures var Reread(v, wp) := s.workers[w].pc;
      s.slots[v].start <= SplitPoint(wp, s.slots[v].liveEnd) <= s.slots[v].liveEnd
  {
    assert ThiefAt(c, s, w);
    var Reread(v, wp) := s.workers[w].pc;
    assert SlotAt(c, s, v);
    SplitExact(wp, s.slots[v].liveEnd);
  }

  lemma ShrinkSafe(c: Config, s: State, w: nat)
    requires c.Valid() && Safe(c, s) && Can(c, s, w, ShrinkVictim)
    ensures Safe(c, Do(c, s, w, ShrinkVictim))
  {
    StepShape(c, s, w, ShrinkVictim);
    ShrinkThief(c, s, w);
    var Reread(v, wp) := s.workers[w].pc;
    var t := s.slots[v];
    var split := SplitPoint(wp, t.liveEnd);
    var s' := Do(c, s, w, ShrinkVictim);
    forall i | 0 <= i < |s'.slots| ensures SlotAt(c, s', i) {
      assert SlotAt(c, s, i);
      ShrinkKeeps(c, s.file, i, t, s.workers[t.owner], w, split);
    }
    forall x | 0 <= x < |s'.workers| ensures WorkerAt(c, s', x) { ShrinkWorker(c, s, w, x); }
    OthersHaveNoVictim(c, s, s', w);
  }

  lemma ShrinkWorker(c: Config, s: State, w: nat, x: nat)
    requires c.Valid() && Safe(c, s) && Can(c, s, w, ShrinkVictim) && x < |s.workers|
    ensures WorkerAt(c, Do(c, s, w, ShrinkVictim), x)
  {
    ShrinkThief(c, s, w);
    var Reread(v, wp) := s.workers[w].pc;
    assert WorkerAt(c, s, x);
    ShrinkKeeps(c, s.file, 0, s.slots[v], s.workers[x], x, SplitPoint(wp, s.slots[v].liveEnd));
  }

  lemma AppendSafe(c: Config, s: State, w: nat)
    requires Safe(c, s) && Can(c, s, w, AppendSlot)
    ensures Safe(c, Do(c, s, w, AppendSlot))
  {
    StepShape(c, s, w, AppendSlot);
    assert ThiefAt(c, s, w);
    var s' := Do(c, s, w, AppendSlot);
    forall i | 0 <= i < |s'.slots| ensures SlotAt(c, s', i) {
      if i < |s.slots| { assert SlotAt(c, s, i); }
    }
    forall x | 0 <= x < |s'.workers| ensures WorkerAt(c, s', x) {
      assert WorkerAt(c, s, x);
    }
    OthersHaveNoVictim(c, s, s', w);
  }

  /** The invariant does not speak about chunks, counters or rows. */
  lemma TablesStep(c: Config, s: State, s': State)
    requires Safe(c, s) && Shape(c, s')
    requires s'.slots == s.slots && s'.workers == s.workers && s'.file == s.file
    ensures Safe(c, s')
  {
    forall i | 0 <= i < |s'.slots| ensures SlotAt(c, s', i) { assert SlotAt(c, s, i); }
    forall x | 0 <= x < |s'.workers| ensures WorkerAt(c, s', x) { assert WorkerAt(c, s, x); }
    forall x | 0 <= x < |s'.workers| ensures ThiefAt(c, s', x) { assert ThiefAt(c, s, x); }
  }

  /** A thief that already owns its tail moves on to the second statement. */
  lemma BetweenSafe(c: Config, s: State, w: nat)
    requires Safe(c, s) && w < |s.workers| && s.workers[w].pc.Appended?
    ensures var Appended(v, split, le) := s.workers[w].pc; Safe(c, SetPc(s, w, Between(v, split, le)))
  {
    var Appended(v, split, le) := s.workers[w].pc;
    var s' := SetPc(s, w, Between(v, split, le));
    assert ThiefAt(c, s, w) && WorkerAt(c, s, w);
    forall i | 0 <= i < |s'.slots| ensures SlotAt(c, s', i) { assert SlotAt(c, s, i); }
    forall x | 0 <= x < |s'.workers| ensures WorkerAt(c, s', x) { assert WorkerAt(c, s, x); }
    OthersHaveNoVictim(c, s, s', w);
  }

  lemma MirrorVictimSafe(c: Config, s: State, w: nat)
    requires Safe(c, s) && Can(c, s, w, MirrorVictim)
    ensures Safe(c, Do(c, s, w, MirrorVictim))
  {
    StepShape(c, s, w, MirrorVictim);
    BetweenSafe(c, s, w);
    var Appended(v, split, le) := s.workers[w].pc;
    TablesStep(c, SetPc(s, w, Between(v, split, le)), Do(c, s, w, MirrorVictim));
  }

  lemma MirrorTailSafe(c: Config, s: State, w: nat)
    requires Safe(c, s) && Can(c, s, w, MirrorTail)
    ensures Safe(c, Do(c, s, w, MirrorTail))
  {
    StepShape(c, s, w, MirrorTail);
    assert ThiefAt(c, s, w) && WorkerAt(c, s, w);
    var s' := Do(c, s, w, MirrorTail);
    forall i | 0 <= i < |s'.slots| ensures SlotAt(c, s', i) {
      assert SlotAt(c, s, i);
    }
    forall x | 0 <= x < |s'.workers| ensures WorkerAt(c, s', x) {
      assert WorkerAt(c, s, x);
    }
    OthersHaveNoVictim(c, s, s', w);
  }

  lemma SaveSafe(c: Config, s: State, j: nat, v: nat)
    requires Safe(c, s) && j < |s.chunks|
    ensures Safe(c, DoSave(s, j, v))
  {
    TablesStep(c, s, DoSave(s, j, v));
  }

  // ----- every reachable state -----

  lemma InitSafe(c: Config, s: State)
    requires Init(c, s)
    ensures Safe(c, s)
  {
    forall i | 0 <= i < |s.slots| ensures SlotAt(c, s, i) {
    }
    forall x | 0 <= x < |s.workers| ensures WorkerAt(c, s, x) {
    }
    forall x | 0 <= x < |s.workers| ensures ThiefAt(c, s, x) {
    }
  }

  lemma NextSafe(c: Config, s: State, l: Label, s': State)
    requires c.Valid() && Safe(c, s) && Next(c, s, l, s')
    ensures Safe(c, s')
  {
    match l
    case Save(j, v) => SaveSafe(c, s, j, v);
    case Act(w, a) =>
      match a
      case Deliver(n) => DeliverSafe(c, s, w, n);
      case WriteFile => WriteSafe(c, s, w);
      case WriteFails(p) => WriteFailsSafe(c, s, w, p);
      case CountBytes => CountBytesSafe(c, s, w);
      case CountPos => CountPosSafe(c, s, w);
      case CountTotal => CountTotalSafe(c, s, w);
      case CountChunk => CountChunkSafe(c, s, w);
      case Stop(_) => EndSafe(c, s, w, a);
      case Test(_) => EndSafe(c, s, w, a);
      case MarkDone => MarkDoneSafe(c, s, w);
      case Lock => LockSafe(c, s, w);
      case ScanOrphan => ScanOrphanSafe(c, s, w);
      case ScanBusiest => ScanBusiestSafe(c, s, w);
      case RereadPos => RereadSafe(c, s, w);
      case ShrinkVictim => ShrinkSafe(c, s, w);
      case AppendSlot => AppendSafe(c, s, w);
      case MirrorVictim => MirrorVictimSafe(c, s, w);
      case MirrorTail => MirrorTailSafe(c, s, w);
  }

  /** Every state of every run is safe. */
  lemma {:induction false} RunSafe(c: Config, run: seq<State>, labels: seq<Label>, n: nat)
    requires c.Valid() && IsRun(c, run, labels) && n < |run|
    ensures Safe(c, run[n])
  {
    if n == 0 {
      InitSafe(c, run[0]);
    } else {
      RunSafe(c, run, labels, n - 1);
      NextSafe(c, run[n - 1], labels[n - 1], run[n]);
    }
  }
}
