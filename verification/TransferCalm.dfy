/** Runs in which, besides, a callback delivers at most half the steal threshold: nothing is
    ever written past a live end. */
module TransferCalm {
  import opened Common
  import opened Transfer
  import opened TransferSafety
  import opened TransferCoverage
  import opened TransferClaims
  import opened TransferAtomic

  ghost predicate Calm(c: Config) {
    Atomic(c) && 2 * c.maxCallback <= c.minSteal
  }

  /** Slot `i` is not overrun, and will not be by the callback in flight on it. */
  ghost predicate WithinSlot(s: State, i: int) {
    0 <= i < |s.slots| && s.slots[i].writePos <= s.slots[i].liveEnd
  }

  ghost predicate WithinWorker(s: State, w: int) {
    && 0 <= w < |s.workers| && s.workers[w].slot < |s.slots|
    && (s.workers[w].pc.Owns() ==> s.workers[w].Reach() <= s.slots[s.workers[w].slot].liveEnd)
  }

  ghost predicate Within(s: State) {
    && (forall i :: 0 <= i < |s.slots| ==> WithinSlot(s, i))
    && (forall w :: 0 <= w < |s.workers| ==> WithinWorker(s, w))
  }

  lemma OwnerWithin(c: Config, s: State, w: nat, a: Action)
    requires Safe(c, s) && Within(s) && Can(c, s, w, a)
    requires s.workers[w].pc.Owns() && !s.workers[w].pc.Holding()
    ensures Within(Do(c, s, w, a))
  {
    var s' := Do(c, s, w, a);
    StepShape(c, s, w, a);
    OwnerMove(c, s, w, a);
    forall i | 0 <= i < |s'.slots| ensures WithinSlot(s', i) { assert WithinSlot(s, i); }
    forall x | 0 <= x < |s'.workers| ensures WithinWorker(s', x) { assert WithinWorker(s, x); }
  }

  /** The step moves its worker and the worker's slot, and no end. */
  lemma OwnerMove(c: Config, s: State, w: nat, a: Action)
    requires Safe(c, s) && Within(s) && Can(c, s, w, a)
    requires s.workers[w].pc.Owns() && !s.workers[w].pc.Holding()
    ensures var s', i := Do(c, s, w, a), s.workers[w].slot;
      && |s'.slots| == |s.slots| && s'.slots == s.slots[i := s'.slots[i]] && s'.slots[i].liveEnd == s.slots[i].liveEnd
      && |s'.workers| == |s.workers| && s'.workers == s.workers[w := s'.workers[w]] && s'.workers[w].slot == i
      && s'.slots[i].writePos <= s.slots[i].liveEnd
      && (s'.workers[w].pc.Owns() ==> s'.workers[w].Reach() <= s.slots[i].liveEnd)
  {
    assert WorkerAt(c, s, w) && WithinWorker(s, w) && WithinSlot(s, s.workers[w].slot);
    if a.Deliver? || a.WriteFile? || a.WriteFails? || a.CountBytes? || a.CountPos? { CallbackMove(c, s, w, a); }
  }

  lemma CallbackMove(c: Config, s: State, w: nat, a: Action)
    requires Safe(c, s) && Within(s) && Can(c, s, w, a)
    requires a.Deliver? || a.WriteFile? || a.WriteFails? || a.CountBytes? || a.CountPos?
    ensures var s', i := Do(c, s, w, a), s.workers[w].slot;
      && |s'.slots| == |s.slots| && s'.slots == s.slots[i := s'.slots[i]] && s'.slots[i].liveEnd == s.slots[i].liveEnd
      && |s'.workers| == |s.workers| && s'.workers == s.workers[w := s'.workers[w]] && s'.workers[w].slot == i
      && s'.slots[i].writePos <= s.slots[i].liveEnd
      && (s'.workers[w].pc.Owns() ==> s'.workers[w].Reach() <= s.slots[i].liveEnd)
  {
    assert WorkerAt(c, s, w) && WithinWorker(s, w) && WithinSlot(s, s.workers[w].slot);
  }

  lemma ShrinkRoom(c: Config, s: State, w: nat)
    requires Calm(c) && Safe(c, s) && Tight(c, s) && Within(s) && Can(c, s, w, ShrinkVictim)
    ensures var Reread(v, wp) := s.workers[w].pc;
      var split := SplitPoint(wp, s.slots[v].liveEnd);
      && s.slots[v].writePos <= split
      && forall x :: 0 <= x < |s.workers| && s.workers[x].pc.Owns() && s.workers[x].slot == v ==> s.workers[x].Reach() <= split
  {
    assert ThiefAt(c, s, w) && TightThief(c, s, w);
    var Reread(v, wp) := s.workers[w].pc;
    assert SlotAt(c, s, v);
    SplitExact(wp, s.slots[v].liveEnd);
    forall x | 0 <= x < |s.workers| && s.workers[x].pc.Owns() && s.workers[x].slot == v
      ensures s.workers[x].Reach() <= SplitPoint(wp, s.slots[v].liveEnd)
    {
      assert WithinWorker(s, x) && WorkerAt(c, s, x);
    }
  }

  /** The callback in flight on the victim, at most half of what remains, stays before the split. */
  lemma ShrinkWithin(c: Config, s: State, w: nat)
    requires Calm(c) && Safe(c, s) && Tight(c, s) && Within(s) && Can(c, s, w, ShrinkVictim)
    ensures Within(Do(c, s, w, ShrinkVictim))
  {
    var s' := Do(c, s, w, ShrinkVictim);
    StepShape(c, s, w, ShrinkVictim);
    ShrinkRoom(c, s, w);
    forall i | 0 <= i < |s'.slots| ensures WithinSlot(s', i) { assert WithinSlot(s, i); }
    forall x | 0 <= x < |s'.workers| ensures WithinWorker(s', x) {
      assert WithinWorker(s, x) && WorkerAt(c, s, x);
    }
  }

  lemma AppendWithin(c: Config, s: State, w: nat)
    requires Safe(c, s) && Within(s) && Can(c, s, w, AppendSlot)
    ensures Within(Do(c, s, w, AppendSlot))
  {
    var s' := Do(c, s, w, AppendSlot);
    StepShape(c, s, w, AppendSlot);
    assert ThiefAt(c, s, w);
    forall i | 0 <= i < |s'.slots| ensures WithinSlot(s', i) {
      if i < |s.slots| { assert WithinSlot(s, i); }
    }
    forall x | 0 <= x < |s'.workers| ensures WithinWorker(s', x) { assert WithinWorker(s, x); }
  }

  /** One worker moves on, with no more in flight, and the slots keep position and end. */
  lemma KeepsWithin(s: State, s': State, w: nat)
    requires Within(s) && w < |s.workers| == |s'.workers| && |s'.slots| == |s.slots|
    requires forall i :: 0 <= i < |s.slots| ==>
      s'.slots[i].writePos == s.slots[i].writePos && s'.slots[i].liveEnd == s.slots[i].liveEnd
    requires s'.workers == s.workers[w := s'.workers[w]] && s'.workers[w].slot == s.workers[w].slot
    requires s'.workers[w].pc.Owns() ==>
      s.workers[w].pc.Owns() && s'.workers[w].Reach() == s.workers[w].Reach()
    ensures Within(s')
  {
    forall i | 0 <= i < |s'.slots| ensures WithinSlot(s', i) { assert WithinSlot(s, i); }
    forall x | 0 <= x < |s'.workers| ensures WithinWorker(s', x) { assert WithinWorker(s, x); }
  }

  lemma LookWithin(c: Config, s: State, w: nat, a: Action)
    requires Safe(c, s) && Within(s) && Can(c, s, w, a)
    requires a.Lock? || a.ScanOrphan? || a.ScanBusiest? || a.RereadPos?
    ensures Within(Do(c, s, w, a))
  {
    if a.ScanOrphan? && s.workers[w].pc.next < |s.slots| { NoOrphans(c, s, s.workers[w].pc.next); }
    KeepsWithin(s, Do(c, s, w, a), w);
  }

  lemma MirrorWithin(c: Config, s: State, w: nat, a: Action)
    requires Safe(c, s) && Within(s) && Can(c, s, w, a) && (a.MirrorVictim? || a.MirrorTail?)
    ensures Within(Do(c, s, w, a))
  {
    KeepsWithin(s, Do(c, s, w, a), w);
  }

  lemma NextWithin(c: Config, s: State, l: Label, s': State)
    requires Calm(c) && Safe(c, s) && Tight(c, s) && Within(s) && Next(c, s, l, s')
    ensures Within(s')
  {
    match l
    case Save(_, _) =>
      forall i | 0 <= i < |s'.slots| ensures WithinSlot(s', i) { assert WithinSlot(s, i); }
      forall x | 0 <= x < |s'.workers| ensures WithinWorker(s', x) { assert WithinWorker(s, x); }
    case Act(w, a) =>
      if a.ShrinkVictim? {
        ShrinkWithin(c, s, w);
      } else if a.AppendSlot? {
        AppendWithin(c, s, w);
      } else if s.workers[w].pc.Owns() && !s.workers[w].pc.Holding() {
        OwnerWithin(c, s, w, a);
      } else if a.MirrorVictim? || a.MirrorTail? {
        MirrorWithin(c, s, w, a);
      } else {
        LookWithin(c, s, w, a);
      }
  }

  lemma {:induction false} RunWithin(c: Config, run: seq<State>, labels: seq<Label>, n: nat)
    requires Calm(c) && IsRun(c, run, labels) && n < |run|
    ensures Within(run[n])
  {
    if n == 0 {
      forall i | 0 <= i < |run[0].slots| ensures WithinSlot(run[0], i) {}
    } else {
      RunWithin(c, run, labels, n - 1);
      RunTight(c, run, labels, n - 1);
      assert Next(c, run[n - 1], labels[n - 1], run[n]);
      NextWithin(c, run[n - 1], labels[n - 1], run[n]);
    }
  }
}
