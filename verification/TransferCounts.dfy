/** The global byte counter, and a measure every worker step lowers. */
module TransferCounts {
  import opened Common
  import opened Transfer
  import opened TransferSafety
  import opened TransferCoverage
  import opened TransferCalm

  function Sum(xs: seq<int>): int {
    if xs == [] then 0 else xs[0] + Sum(xs[1..])
  }

  lemma {:induction false} SumUpdate(xs: seq<int>, i: nat, x: int)
    requires i < |xs|
    ensures Sum(xs[i := x]) == Sum(xs) - xs[i] + x
  {
    if i == 0 {
      assert xs[0 := x][1..] == xs[1..];
    } else {
      assert xs[i := x][1..] == xs[1..][i - 1 := x];
      SumUpdate(xs[1..], i - 1, x);
    }
  }

  lemma {:induction false} SumAppend(xs: seq<int>, x: int)
    ensures Sum(xs + [x]) == Sum(xs) + x
  {
    if xs == [] {
      assert xs + [x] == [x];
    } else {
      assert (xs + [x])[1..] == xs[1..] + [x];
      SumAppend(xs[1..], x);
    }
  }

  lemma {:induction false} SumZero(xs: seq<int>)
    requires forall i :: 0 <= i < |xs| ==> xs[i] == 0
    ensures Sum(xs) == 0
  {
    if xs != [] { SumZero(xs[1..]); }
  }

  /** Pointwise order carries over to sums, strictly unless the sequences are equal. */
  lemma {:induction false} SumOrder(xs: seq<int>, ys: seq<int>)
    requires |xs| == |ys| && forall i :: 0 <= i < |xs| ==> xs[i] <= ys[i]
    ensures Sum(xs) <= Sum(ys)
    ensures Sum(xs) == Sum(ys) <==> xs == ys
  {
    if xs != [] {
      SumOrder(xs[1..], ys[1..]);
      assert xs == [xs[0]] + xs[1..] && ys == [ys[0]] + ys[1..];
    }
  }

  // ----- the byte counter -----

  function Received(slots: seq<Slot>): seq<int> {
    seq(|slots|, i requires 0 <= i < |slots| => slots[i].writePos - slots[i].start)
  }

  function Lengths(slots: seq<Slot>): seq<int> {
    seq(|slots|, i requires 0 <= i < |slots| => slots[i].liveEnd - slots[i].start)
  }

  function PlanLengths(plan: seq<Interval>): seq<int> {
    seq(|plan|, i requires 0 <= i < |plan| => plan[i].hi - plan[i].lo)
  }

  function Uncounted(k: Worker): int { if k.pc.PosCounted? then k.pc.writable else 0 }

  function InFlight(workers: seq<Worker>): seq<int> {
    seq(|workers|, w requires 0 <= w < |workers| => Uncounted(workers[w]))
  }

  /** `download_bytes_done`, starting at `d0`, has counted all that the slots received but
      for callbacks caught between two increments; and splitting creates no length. */
  ghost predicate Counted(c: Config, d0: nat, s: State) {
    && s.downloaded + Sum(InFlight(s.workers)) == d0 + Sum(Received(s.slots))
    && Sum(Lengths(s.slots)) + Pending(s).hi - Pending(s).lo == Sum(PlanLengths(c.plan))
  }

  /** One worker changes, the slots keep their spans and their sum changes as the counters do. */
  lemma FlightUpdate(s: State, s': State, w: nat)
    requires w < |s.workers| == |s'.workers| && s'.workers == s.workers[w := s'.workers[w]]
    ensures Sum(InFlight(s'.workers)) ==
      Sum(InFlight(s.workers)) - Uncounted(s.workers[w]) + Uncounted(s'.workers[w])
  {
    assert InFlight(s'.workers) == InFlight(s.workers)[w := Uncounted(s'.workers[w])];
    SumUpdate(InFlight(s.workers), w, Uncounted(s'.workers[w]));
  }

  lemma SlotUpdate(s: State, s': State, i: nat)
    requires i < |s.slots| == |s'.slots| && s'.slots == s.slots[i := s'.slots[i]]
    ensures Sum(Received(s'.slots)) == Sum(Received(s.slots))
      - (s.slots[i].writePos - s.slots[i].start) + (s'.slots[i].writePos - s'.slots[i].start)
    ensures Sum(Lengths(s'.slots)) == Sum(Lengths(s.slots))
      - (s.slots[i].liveEnd - s.slots[i].start) + (s'.slots[i].liveEnd - s'.slots[i].start)
  {
    var t := s'.slots[i];
    assert Received(s'.slots) == Received(s.slots)[i := t.writePos - t.start];
    assert Lengths(s'.slots) == Lengths(s.slots)[i := t.liveEnd - t.start];
    SumUpdate(Received(s.slots), i, t.writePos - t.start);
    SumUpdate(Lengths(s.slots), i, t.liveEnd - t.start);
  }

  /** Steps that change no slot. */
  lemma SameSlotsCounted(c: Config, d0: nat, s: State, s': State, w: nat)
    requires Counted(c, d0, s) && w < |s.workers| == |s'.workers|
    requires s'.workers == s.workers[w := s'.workers[w]]
    requires s'.slots == s.slots && Pending(s') == Pending(s)
    requires s'.downloaded + Uncounted(s'.workers[w]) == s.downloaded + Uncounted(s.workers[w])
    ensures Counted(c, d0, s')
  {
    FlightUpdate(s, s', w);
  }

  /** Steps that change one slot. */
  lemma OneSlotCounted(c: Config, d0: nat, s: State, s': State, w: nat, i: nat)
    requires Counted(c, d0, s) && w < |s.workers| == |s'.workers|
    requires s'.workers == s.workers[w := s'.workers[w]]
    requires i < |s.slots| == |s'.slots| && s'.slots == s.slots[i := s'.slots[i]]
    requires s'.downloaded == s.downloaded && s'.slots[i].start == s.slots[i].start
    requires s'.slots[i].writePos - s.slots[i].writePos == Uncounted(s'.workers[w]) - Uncounted(s.workers[w])
    requires s'.slots[i].liveEnd - s.slots[i].liveEnd ==
      (Pending(s).hi - Pending(s).lo) - (Pending(s').hi - Pending(s').lo)
    ensures Counted(c, d0, s')
  {
    FlightUpdate(s, s', w);
    SlotUpdate(s, s', i);
  }

  lemma SlotAppend(slots: seq<Slot>, t: Slot)
    ensures Sum(Received(slots + [t])) == Sum(Received(slots)) + t.writePos - t.start
    ensures Sum(Lengths(slots + [t])) == Sum(Lengths(slots)) + t.liveEnd - t.start
  {
    assert Received(slots + [t]) == Received(slots) + [t.writePos - t.start];
    assert Lengths(slots + [t]) == Lengths(slots) + [t.liveEnd - t.start];
    SumAppend(Received(slots), t.writePos - t.start);
    SumAppend(Lengths(slots), t.liveEnd - t.start);
  }

  lemma AppendCounted(c: Config, d0: nat, s: State, w: nat)
    requires Safe(c, s) && Counted(c, d0, s) && Can(c, s, w, AppendSlot)
    ensures Counted(c, d0, Do(c, s, w, AppendSlot))
  {
    var s' := Do(c, s, w, AppendSlot);
    var t := s'.slots[|s.slots|];
    assert s.mutex == Some(w);
    assert Pending(s) == Span(t) && Pending(s') == Interval(0, 0);
    FlightUpdate(s, s', w);
    SlotAppend(s.slots, t);
  }

  lemma ShrinkCounted(c: Config, d0: nat, s: State, w: nat)
    requires c.Valid() && Safe(c, s) && Counted(c, d0, s) && Can(c, s, w, ShrinkVictim)
    ensures Counted(c, d0, Do(c, s, w, ShrinkVictim))
  {
    assert s.mutex == Some(w);
    OneSlotCounted(c, d0, s, Do(c, s, w, ShrinkVictim), w, s.workers[w].pc.victim);
  }

  lemma OtherCounted(c: Config, d0: nat, s: State, w: nat, a: Action)
    requires Safe(c, s) && Counted(c, d0, s) && Can(c, s, w, a)
    requires !a.ShrinkVictim? && !a.AppendSlot? && !a.MirrorVictim? && !a.MirrorTail?
    ensures Counted(c, d0, Do(c, s, w, a))
  {
    var s' := Do(c, s, w, a);
    if !s.workers[w].pc.Owns() {
      ThiefCounted(c, d0, s, w, a);
    } else {
      OwnerStepSpans(c, s, w, a);
      if a.CountPos? || a.MarkDone? {
        OneSlotCounted(c, d0, s, s', w, s.workers[w].slot);
      } else {
        SameSlotsCounted(c, d0, s, s', w);
      }
    }
  }

  lemma ThiefCounted(c: Config, d0: nat, s: State, w: nat, a: Action)
    requires Safe(c, s) && Counted(c, d0, s) && Can(c, s, w, a) && !s.workers[w].pc.Owns()
    requires !a.ShrinkVictim? && !a.AppendSlot? && !a.MirrorVictim? && !a.MirrorTail?
    ensures Counted(c, d0, Do(c, s, w, a))
  {
    ThiefStepSpans(c, s, w, a);
    if a.ScanOrphan? && s.workers[w].pc.next < |s.slots| { NoOrphans(c, s, s.workers[w].pc.next); }
    SameSlotsCounted(c, d0, s, Do(c, s, w, a), w);
  }

  lemma MirrorCounted(c: Config, d0: nat, s: State, w: nat, a: Action)
    requires Safe(c, s) && Counted(c, d0, s) && Can(c, s, w, a) && (a.MirrorVictim? || a.MirrorTail?)
    ensures Counted(c, d0, Do(c, s, w, a))
  {
    assert s.mutex == Some(w);
    OneSlotCounted(c, d0, s, Do(c, s, w, a), w, s.workers[w].slot);
  }

  lemma InitCounted(c: Config, s: State)
    requires Init(c, s)
    ensures Counted(c, s.downloaded, s)
  {
    SumZero(InFlight(s.workers));
    SumZero(Received(s.slots));
    assert Lengths(s.slots) == PlanLengths(c.plan);
  }

  lemma NextCounted(c: Config, d0: nat, s: State, l: Label, s': State)
    requires c.Valid() && Safe(c, s) && Counted(c, d0, s) && Next(c, s, l, s')
    ensures Counted(c, d0, s')
  {
    match l
    case Save(_, _) =>
    case Act(w, a) =>
      if a.ShrinkVictim? {
        ShrinkCounted(c, d0, s, w);
      } else if a.AppendSlot? {
        AppendCounted(c, d0, s, w);
      } else if a.MirrorVictim? || a.MirrorTail? {
        MirrorCounted(c, d0, s, w, a);
      } else {
        OtherCounted(c, d0, s, w, a);
      }
  }

  lemma {:induction false} RunCounted(c: Config, run: seq<State>, labels: seq<Label>, n: nat)
    requires c.Valid() && IsRun(c, run, labels) && n < |run|
    ensures Counted(c, run[0].downloaded, run[n])
  {
    if n == 0 {
      InitCounted(c, run[0]);
    } else {
      RunCounted(c, run, labels, n - 1);
      RunSafe(c, run, labels, n - 1);
      NextCounted(c, run[0].downloaded, run[n - 1], labels[n - 1], run[n]);
    }
  }

  /** On success the counter has grown by at least the planned bytes in every interleaving,
      and by exactly that many if and only if no slot was written past its live end. */
  lemma SuccessCounts(c: Config, run: seq<State>, labels: seq<Label>)
    requires c.Valid() && IsRun(c, run, labels) && AllSucceeded(run[|run| - 1])
    ensures var s, planned := run[|run| - 1], Sum(PlanLengths(c.plan));
      && s.downloaded >= run[0].downloaded + planned
      && (s.downloaded == run[0].downloaded + planned <==>
            forall i :: 0 <= i < |s.slots| ==> s.slots[i].writePos == s.slots[i].liveEnd)
  {
    var s := run[|run| - 1];
    RunSafe(c, run, labels, |run| - 1);
    RunCounted(c, run, labels, |run| - 1);
    assert Pending(s) == Interval(0, 0);
    SumZero(InFlight(s.workers));
    forall i | 0 <= i < |s.slots| ensures Lengths(s.slots)[i] <= Received(s.slots)[i] {
      assert SlotAt(c, s, i);
    }
    SumOrder(Lengths(s.slots), Received(s.slots));
    if forall i :: 0 <= i < |s.slots| ==> s.slots[i].writePos == s.slots[i].liveEnd {
      assert Lengths(s.slots) == Received(s.slots);
    } else {
      var i :| 0 <= i < |s.slots| && s.slots[i].writePos != s.slots[i].liveEnd;
      assert Lengths(s.slots)[i] != Received(s.slots)[i];
    }
  }

  /** With atomic steals and callbacks of at most half the threshold, no slot is ever written
      past its live end, so a successful run has counted exactly the planned bytes. */
  lemma CalmSuccessCountsExactly(c: Config, run: seq<State>, labels: seq<Label>)
    requires Calm(c) && IsRun(c, run, labels)
    ensures forall n, i :: 0 <= n < |run| && 0 <= i < |run[n].slots| ==>
      run[n].slots[i].writePos <= run[n].slots[i].liveEnd
    ensures AllSucceeded(run[|run| - 1]) ==>
      run[|run| - 1].downloaded == run[0].downloaded + Sum(PlanLengths(c.plan))
  {
    forall n, i | 0 <= n < |run| && 0 <= i < |run[n].slots|
      ensures run[n].slots[i].writePos <= run[n].slots[i].liveEnd
    {
      RunWithin(c, run, labels, n);
      assert WithinSlot(run[n], i);
    }
    var s := run[|run| - 1];
    if AllSucceeded(s) {
      SuccessCounts(c, run, labels);
      RunSafe(c, run, labels, |run| - 1);
      forall i | 0 <= i < |s.slots| ensures s.slots[i].writePos == s.slots[i].liveEnd {
        assert SlotAt(c, s, i);
      }
    }
  }

  // ----- termination -----

  function Left(k: Worker): nat {
    if k.base + k.bytesDone <= k.reqEnd then k.reqEnd - k.base - k.bytesDone else 0
  }

  /** Rank of a worker: a request ranks by the bytes it still has to deliver. */
  function Rank(k: Worker): nat {
    match k.pc
    case Between(_, _, _) => 70 + 10 * Left(k)
    case Appended(_, _, _) => 71 + 10 * Left(k)
    case Streaming => 50 + 10 * Left(k)
    case Loaded(_, _) => 49 + 10 * Left(k)
    case Written(_, _) => 48 + 10 * Left(k)
    case BytesCounted(_, _) => 57 + 10 * Left(k)
    case PosCounted(_, _) => 56 + 10 * Left(k)
    case TotalCounted(_, _) => 55 + 10 * Left(k)
    case Ended(_) => 42
    case Passed => 41
    case Idle => 40
    case Orphans(next) => if next <= MAX_WORKERS then 30 + MAX_WORKERS - next else 29
    case Busiest(next, _, _) => if next <= MAX_WORKERS then 20 + MAX_WORKERS - next else 19
    case Chosen(_) => 10
    case Reread(_, _) => 9
    case Shrunk(_, _, _) => 8
    case Exited(_) => 0
  }

  function Ranks(workers: seq<Worker>): seq<int> {
    seq(|workers|, w requires 0 <= w < |workers| => Rank(workers[w]))
  }

  /** Every slot still to be made is worth more than any request. */
  function Measure(c: Config, s: State): int {
    (MAX_WORKERS - |s.slots|) * (80 + 10 * |c.content|) + Sum(Ranks(s.workers))
  }

  lemma RankUpdate(s: State, s': State, w: nat)
    requires w < |s.workers| == |s'.workers| && s'.workers == s.workers[w := s'.workers[w]]
    ensures Sum(Ranks(s'.workers)) == Sum(Ranks(s.workers)) - Rank(s.workers[w]) + Rank(s'.workers[w])
  {
    assert Ranks(s'.workers) == Ranks(s.workers)[w := Rank(s'.workers[w])];
    SumUpdate(Ranks(s.workers), w, Rank(s'.workers[w]));
  }

  lemma OwnerRank(c: Config, s: State, w: nat, a: Action)
    requires Safe(c, s) && Can(c, s, w, a) && s.workers[w].pc.Owns()
    ensures Rank(Do(c, s, w, a).workers[w]) < Rank(s.workers[w])
  {
    assert WorkerAt(c, s, w);
  }

  lemma ThiefRank(c: Config, s: State, w: nat, a: Action)
    requires Safe(c, s) && Can(c, s, w, a) && !s.workers[w].pc.Owns() && !a.AppendSlot?
    ensures Rank(Do(c, s, w, a).workers[w]) < Rank(s.workers[w])
  {
    if a.ScanOrphan? && s.workers[w].pc.next < |s.slots| { NoOrphans(c, s, s.workers[w].pc.next); }
  }

  lemma StepOnlyMoves(c: Config, s: State, w: nat, a: Action)
    requires Safe(c, s) && Can(c, s, w, a) && !a.AppendSlot?
    ensures var s' := Do(c, s, w, a);
      |s'.workers| == |s.workers| && s'.workers == s.workers[w := s'.workers[w]] && |s'.slots| == |s.slots|
  {
  }

  lemma OneSlotFewer(free: int, worth: int)
    ensures free * worth == (free - 1) * worth + worth
  {
  }

  lemma AppendMeasure(c: Config, s: State, w: nat)
    requires Safe(c, s) && Can(c, s, w, AppendSlot)
    ensures Measure(c, Do(c, s, w, AppendSlot)) < Measure(c, s)
  {
    var s' := Do(c, s, w, AppendSlot);
    assert ThiefAt(c, s, w);
    RankUpdate(s, s', w);
    assert Rank(s'.workers[w]) <= 71 + 10 * |c.content|;
    OneSlotFewer(MAX_WORKERS - |s.slots|, 80 + 10 * |c.content|);
  }

  /** Every step of every worker lowers the measure. */
  lemma StepLowersMeasure(c: Config, s: State, w: nat, a: Action)
    requires Safe(c, s) && Can(c, s, w, a)
    ensures Measure(c, Do(c, s, w, a)) < Measure(c, s)
  {
    if a.AppendSlot? {
      AppendMeasure(c, s, w);
    } else {
      StepOnlyMoves(c, s, w, a);
      RankUpdate(s, Do(c, s, w, a), w);
      if s.workers[w].pc.Owns() { OwnerRank(c, s, w, a); } else { ThiefRank(c, s, w, a); }
    }
  }

  lemma {:induction false} SumNonNegative(xs: seq<int>)
    requires forall i :: 0 <= i < |xs| ==> 0 <= xs[i]
    ensures 0 <= Sum(xs)
  {
    if xs != [] { SumNonNegative(xs[1..]); }
  }

  function WorkerSteps(labels: seq<Label>): nat {
    if labels == [] then 0
    else WorkerSteps(labels[..|labels| - 1]) + (if labels[|labels| - 1].Act? then 1 else 0)
  }

  lemma NextMeasure(c: Config, s: State, l: Label, s': State)
    requires Safe(c, s) && Next(c, s, l, s')
    ensures Measure(c, s') + (if l.Act? then 1 else 0) <= Measure(c, s)
  {
    if l.Act? { StepLowersMeasure(c, s, l.w, l.action); }
  }

  lemma {:induction false} RunMeasure(c: Config, run: seq<State>, labels: seq<Label>, k: nat)
    requires c.Valid() && IsRun(c, run, labels) && k <= |labels|
    ensures Measure(c, run[k]) + WorkerSteps(labels[..k]) <= Measure(c, run[0])
  {
    if k > 0 {
      RunMeasure(c, run, labels, k - 1);
      RunSafe(c, run, labels, k - 1);
      assert Next(c, run[k - 1], labels[k - 1], run[k]);
      NextMeasure(c, run[k - 1], labels[k - 1], run[k]);
      assert labels[..k][..k - 1] == labels[..k - 1];
    }
  }

  lemma MeasureNonNegative(c: Config, s: State)
    requires |s.slots| <= MAX_WORKERS
    ensures 0 <= Measure(c, s)
  {
    SumNonNegative(Ranks(s.workers));
    var free, worth := MAX_WORKERS - |s.slots|, 80 + 10 * |c.content|;
    assert 0 <= free * worth;
  }

  function Splits(labels: seq<Label>): nat {
    if labels == [] then 0
    else
      var last := labels[|labels| - 1];
      Splits(labels[..|labels| - 1]) + (if last.Act? && last.action.AppendSlot? then 1 else 0)
  }

  lemma {:induction false} RunSplits(c: Config, run: seq<State>, labels: seq<Label>)
    requires c.Valid() && IsRun(c, run, labels)
    ensures |run[|labels|].slots| == |c.plan| + Splits(labels)
    decreases |labels|
  {
    if |labels| > 0 {
      var n := |labels| - 1;
      RunSplits(c, run[..n + 1], labels[..n]);
      RunSafe(c, run, labels, n);
      assert Next(c, run[n], labels[n], run[n + 1]);
      if labels[n].Act? && !labels[n].action.AppendSlot? {
        StepOnlyMoves(c, run[n], labels[n].w, labels[n].action);
      }
    }
  }

  /** No run is infinite: its worker threads take at most `Measure` steps together, so every
      acquire loop ends once its segment requests do; and a run makes at most
      MAX_WORKERS - |plan| splits. */
  lemma RunsTerminate(c: Config, run: seq<State>, labels: seq<Label>)
    requires c.Valid() && IsRun(c, run, labels)
    ensures WorkerSteps(labels) <= Measure(c, run[0])
    ensures Splits(labels) <= MAX_WORKERS - |c.plan|
  {
    RunMeasure(c, run, labels, |labels|);
    assert labels[..|labels|] == labels;
    RunSplits(c, run, labels);
    RunSafe(c, run, labels, |labels|);
    MeasureNonNegative(c, run[|labels|]);
  }
}
