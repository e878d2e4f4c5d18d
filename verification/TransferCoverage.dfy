/** The slots always tile the planned intervals, so a run whose workers all succeed has
    written every planned byte. */
module TransferCoverage {
  import opened Common
  import opened Transfer
  import opened TransferSafety

  /** The tail a thief has cut off but not yet appended; empty at all other times. */
  function Pending(s: State): Interval {
    if s.mutex.Some? && s.mutex.value < |s.workers| && s.workers[s.mutex.value].pc.Shrunk? then
      Interval(s.workers[s.mutex.value].pc.split, s.workers[s.mutex.value].pc.le)
    else Interval(0, 0)
  }

  function Span(t: Slot): Interval { Interval(t.start, t.liveEnd) }

  predicate In(k: nat, v: Interval) { v.lo <= k < v.hi }

  /** No byte lies in both intervals. */
  predicate Apart(a: Interval, b: Interval) {
    a.hi <= a.lo || b.hi <= b.lo || a.hi <= b.lo || b.hi <= a.lo
  }

  ghost predicate Covered(s: State, k: nat) {
    In(k, Pending(s)) || exists i :: 0 <= i < |s.slots| && In(k, Span(s.slots[i]))
  }

  ghost predicate Tiled(c: Config, s: State) {
    && (forall p, k: nat :: 0 <= p < |c.plan| && In(k, c.plan[p]) ==> Covered(s, k))
    && (c.splits ==>
          && (forall i, j :: 0 <= i < j < |s.slots| ==> Apart(Span(s.slots[i]), Span(s.slots[j])))
          && (forall i :: 0 <= i < |s.slots| ==> Apart(Span(s.slots[i]), Pending(s))))
  }

  ghost predicate SameSpans(s: State, s': State) {
    && |s.slots| == |s'.slots|
    && Pending(s) == Pending(s')
    && forall i :: 0 <= i < |s.slots| ==> Span(s'.slots[i]) == Span(s.slots[i])
  }

  lemma SameSpansTiled(c: Config, s: State, s': State)
    requires Tiled(c, s) && SameSpans(s, s')
    ensures Tiled(c, s')
  {
    forall p, k: nat | 0 <= p < |c.plan| && In(k, c.plan[p]) ensures Covered(s', k) {
      assert Covered(s, k);
      if !In(k, Pending(s)) {
        var i :| 0 <= i < |s.slots| && In(k, Span(s.slots[i]));
        assert In(k, Span(s'.slots[i]));
      }
    }
  }

  /** Only a split moves an interval. */
  lemma OwnerStepSpans(c: Config, s: State, w: nat, a: Action)
    requires Safe(c, s) && Can(c, s, w, a) && s.workers[w].pc.Owns() && !s.workers[w].pc.Holding()
    ensures SameSpans(s, Do(c, s, w, a))
  {
    assert WorkerAt(c, s, w);
  }

  lemma ThiefStepSpans(c: Config, s: State, w: nat, a: Action)
    requires Safe(c, s) && Can(c, s, w, a) && !s.workers[w].pc.Owns() && !a.ShrinkVictim? && !a.AppendSlot?
    ensures SameSpans(s, Do(c, s, w, a))
  {
    if a.ScanOrphan? && s.workers[w].pc.next < |s.slots| { NoOrphans(c, s, s.workers[w].pc.next); }
  }

  lemma MirrorStepSpans(c: Config, s: State, w: nat, a: Action)
    requires Safe(c, s) && Can(c, s, w, a) && (a.MirrorVictim? || a.MirrorTail?)
    ensures SameSpans(s, Do(c, s, w, a))
  {
  }

  /** A shrink cuts `[start, le)` into `[start, split)` and the pending `[split, le)`. */
  lemma ShrinkTiled(c: Config, s: State, w: nat)
    requires c.Valid() && Safe(c, s) && Tiled(c, s) && Can(c, s, w, ShrinkVictim)
    ensures Tiled(c, Do(c, s, w, ShrinkVictim))
  {
    assert ThiefAt(c, s, w);
    var Reread(v, wp) := s.workers[w].pc;
    assert SlotAt(c, s, v);
    SplitExact(wp, s.slots[v].liveEnd);
    var s' := Do(c, s, w, ShrinkVictim);
    assert Pending(s) == Interval(0, 0);
    assert Pending(s') == Interval(s'.slots[v].liveEnd, s.slots[v].liveEnd);
    forall p, k: nat | 0 <= p < |c.plan| && In(k, c.plan[p]) ensures Covered(s', k) {
      assert Covered(s, k);
      var i :| 0 <= i < |s.slots| && In(k, Span(s.slots[i]));
      assert In(k, Span(s'.slots[i])) || In(k, Pending(s'));
    }
  }

  lemma AppendTiled(c: Config, s: State, w: nat)
    requires Safe(c, s) && Tiled(c, s) && Can(c, s, w, AppendSlot)
    ensures Tiled(c, Do(c, s, w, AppendSlot))
  {
    var s' := Do(c, s, w, AppendSlot);
    assert Pending(s') == Interval(0, 0);
    assert Span(s'.slots[|s.slots|]) == Pending(s);
    forall p, k: nat | 0 <= p < |c.plan| && In(k, c.plan[p]) ensures Covered(s', k) {
      assert Covered(s, k);
      if In(k, Pending(s)) {
        assert In(k, Span(s'.slots[|s.slots|]));
      } else {
        var i :| 0 <= i < |s.slots| && In(k, Span(s.slots[i]));
        assert In(k, Span(s'.slots[i]));
      }
    }
  }

  lemma InitTiled(c: Config, s: State)
    requires Init(c, s)
    ensures Tiled(c, s)
  {
    forall p, k: nat | 0 <= p < |c.plan| && In(k, c.plan[p]) ensures Covered(s, k) {
      assert Span(s.slots[p]) == c.plan[p];
    }
  }

  lemma NextTiled(c: Config, s: State, l: Label, s': State)
    requires c.Valid() && Safe(c, s) && Tiled(c, s) && Next(c, s, l, s')
    ensures Tiled(c, s')
  {
    match l
    case Save(j, v) => SameSpansTiled(c, s, s');
    case Act(w, a) =>
      if a.ShrinkVictim? {
        ShrinkTiled(c, s, w);
      } else if a.AppendSlot? {
        AppendTiled(c, s, w);
      } else {
        if a.MirrorVictim? || a.MirrorTail? {
          MirrorStepSpans(c, s, w, a);
        } else if s.workers[w].pc.Owns() {
          OwnerStepSpans(c, s, w, a);
        } else {
          ThiefStepSpans(c, s, w, a);
        }
        SameSpansTiled(c, s, s');
      }
  }

  lemma {:induction false} RunTiled(c: Config, run: seq<State>, labels: seq<Label>, n: nat)
    requires c.Valid() && IsRun(c, run, labels) && n < |run|
    ensures Safe(c, run[n]) && Tiled(c, run[n])
  {
    if n == 0 {
      InitSafe(c, run[0]);
      InitTiled(c, run[0]);
    } else {
      RunTiled(c, run, labels, n - 1);
      NextSafe(c, run[n - 1], labels[n - 1], run[n]);
      NextTiled(c, run[n - 1], labels[n - 1], run[n]);
    }
  }

  /** When every worker has ended successful, every slot is exhausted. */
  lemma SuccessExhausts(c: Config, s: State, i: nat)
    requires Safe(c, s) && AllSucceeded(s) && i < |s.slots|
    ensures s.slots[i].exhausted
    ensures Good(c, s.file, s.slots[i].start, s.slots[i].liveEnd)
  {
    assert SlotAt(c, s, i);
  }

  /** Whatever the interleaving of callbacks and steals, a pool run in which every worker
      succeeds has written the server's byte at every planned offset. */
  lemma SuccessWritesPlan(c: Config, run: seq<State>, labels: seq<Label>, p: nat, k: nat)
    requires c.Valid() && IsRun(c, run, labels) && AllSucceeded(run[|run| - 1])
    requires p < |c.plan| && c.plan[p].lo <= k < c.plan[p].hi
    ensures k < |c.content| == |run[|run| - 1].file| && run[|run| - 1].file[k] == c.content[k]
  {
    var s := run[|run| - 1];
    RunTiled(c, run, labels, |run| - 1);
    assert In(k, c.plan[p]);
    assert Covered(s, k);
    assert Pending(s) == Interval(0, 0);
    var i :| 0 <= i < |s.slots| && In(k, Span(s.slots[i]));
    SuccessExhausts(c, s, i);
  }

  /** The 64-bit subtraction at the split never wraps: in every state of every run in which
      a thief is about to shrink its victim, the position it read back is within the
      victim's interval, and the split falls between the two. */
  lemma SplitNeverUnderflows(c: Config, run: seq<State>, labels: seq<Label>, n: nat, w: nat)
    requires c.Valid() && IsRun(c, run, labels) && n < |run|
    requires w < |run[n].workers| && run[n].workers[w].pc.Reread?
    ensures run[n].workers[w].pc.victim < |run[n].slots|
    ensures
      var wp := run[n].workers[w].pc.wp;
      var le := run[n].slots[run[n].workers[w].pc.victim].liveEnd;
      wp <= SplitPoint(wp, le) == wp + (le - wp) / 2 <= le
  {
    RunSafe(c, run, labels, n);
    var s := run[n];
    assert ThiefAt(c, s, w);
    var pc := s.workers[w].pc;
    assert SlotAt(c, s, pc.victim);
    SplitExact(pc.wp, s.slots[pc.victim].liveEnd);
  }

  /** In every state of every run a slot that is not exhausted is claimed, so the branch that
      picks up an orphan is never taken, and no run makes more than MAX_WORKERS slots. */
  lemma NoOrphanEver(c: Config, run: seq<State>, labels: seq<Label>, n: nat, i: nat)
    requires c.Valid() && IsRun(c, run, labels) && n < |run| && i < |run[n].slots|
    ensures run[n].slots[i].exhausted || run[n].slots[i].claimed
    ensures |run[n].slots| <= 8
  {
    RunSafe(c, run, labels, n);
    NoOrphans(c, run[n], i);
  }
}
