/** Runs that lead to the places where the data on disk does not cover the file. */
module Witness {
  import opened Common
  import opened Transfer
  import opened TransferSafety
  import opened TransferClaims
  import opened TransferAtomic
  import opened Pool
  import opened Engine

  // ----- longer runs -----

  /** A run goes on with the steps one worker takes in a row. */
  lemma {:induction false} RunFurther(c: Config, run: seq<State>, labels: seq<Label>, w: nat, acts: seq<Action>)
      returns (run': seq<State>, labels': seq<Label>)
    requires IsRun(c, run, labels) && Exec(c, run[|labels|], w, acts).Some?
    ensures IsRun(c, run', labels') && run'[0] == run[0]
    ensures Some(run'[|labels'|]) == Exec(c, run[|labels|], w, acts)
    decreases |acts|
  {
    run', labels' := run, labels;
    if acts != [] {
      var s := run[|labels|];
      var t := Do(c, s, w, acts[0]);
      assert Next(c, s, Act(w, acts[0]), t);
      run', labels' := run + [t], labels + [Act(w, acts[0])];
      forall i | 0 <= i < |labels'| ensures Next(c, run'[i], labels'[i], run'[i + 1]) {
        if i < |labels| { assert Next(c, run[i], labels[i], run[i + 1]); }
      }
      run', labels' := RunFurther(c, run', labels', w, acts[1..]);
    }
  }

  // ----- the first worker fetches its interval -----

  /** The state after worker 0 has fetched `b` bytes and nothing else has happened. */
  ghost function AfterBytes(c: Config, s: State, b: nat): State
    requires InitPool(c, s) && b <= c.plan[0].hi - c.plan[0].lo
  {
    var t := s.slots[0];
    s.(file := WriteAt(s.file, t.start, c.content[t.start..t.start + b]),
       slots := s.slots[0 := t.(writePos := t.start + b)],
       downloaded := s.downloaded + b,
       live := s.live[t.progress := s.live[t.progress] + b],
       workers := s.workers[0 := s.workers[0].(bytesDone := b)])
  }

  lemma WriteTwice(file: seq<Byte>, content: seq<Byte>, o: nat, b: nat, n: nat)
    requires o + b + n <= |content|
    ensures WriteAt(WriteAt(file, o, content[o..o + b]), o + b, content[o + b..o + b + n])
         == WriteAt(file, o, content[o..o + b + n])
  {
  }

  /** What the server sends next. */
  function Part(c: Config, o: nat, n: nat): seq<Byte>
    requires o + n <= |c.content|
  {
    c.content[o..][..n]
  }

  lemma MayFetch(c: Config, s: State, b: nat, n: nat)
    requires InitPool(c, s) && 1 <= n <= c.maxCallback && b + n <= c.plan[0].hi - c.plan[0].lo
    requires Shape(c, AfterBytes(c, s, b))
    ensures Sent(c, AfterBytes(c, s, b), 0, Part(c, c.plan[0].lo + b, n)) && Clamped(AfterBytes(c, s, b), 0, n) == n
  {
    var t := AfterBytes(c, s, b);
    assert t.workers[0] == Worker(0, c.plan[0].lo, c.plan[0].hi, b, false, Streaming);
    assert Can(c, t, 0, Deliver(n));
  }

  lemma Fetched(c: Config, s: State, b: nat, n: nat)
    requires InitPool(c, s) && 1 <= n && b + n <= c.plan[0].hi - c.plan[0].lo
    requires Clamped(AfterBytes(c, s, b), 0, n) == n
    ensures AfterWritten(AfterBytes(c, s, b), 0, Part(c, c.plan[0].lo + b, n)) == AfterBytes(c, s, b + n)
  {
    var o := c.plan[0].lo;
    var data := Part(c, o + b, n);
    assert data[..n] == data == c.content[o + b..o + b + n];
    WriteTwice(s.file, c.content, o, b, n);
    var u, v := AfterWritten(AfterBytes(c, s, b), 0, data), AfterBytes(c, s, b + n);
    assert u.slots == v.slots;
    assert u.live == v.live;
    assert u.workers == v.workers;
  }

  lemma FetchesMore(c: Config, run0: seq<State>, labels0: seq<Label>, b: nat, n: nat)
      returns (run: seq<State>, labels: seq<Label>)
    requires c.Valid() && IsRun(c, run0, labels0)
    requires 1 <= n <= c.maxCallback && b + n <= c.plan[0].hi - c.plan[0].lo
    requires run0[|labels0|] == AfterBytes(c, run0[0], b)
    ensures IsRun(c, run, labels) && run[0] == run0[0] && run[|labels|] == AfterBytes(c, run0[0], b + n)
  {
    RunShape(c, run0, labels0);
    MayFetch(c, run0[0], b, n);
    WrittenTrace(c, run0[|labels0|], 0, Part(c, c.plan[0].lo + b, n));
    Fetched(c, run0[0], b, n);
    run, labels := RunFurther(c, run0, labels0, 0,
      [Deliver(n), WriteFile, CountBytes, CountPos, CountTotal, CountChunk]);
  }

  lemma FetchedNothing(c: Config, s: State)
    requires InitPool(c, s)
    ensures AfterBytes(c, s, 0) == s
  {
    var t := AfterBytes(c, s, 0);
    assert t.file == s.file;
    assert t.slots == s.slots;
    assert t.live == s.live;
    assert t.workers == s.workers;
  }

  lemma {:induction false} FetchesAll(c: Config, s: State, b: nat) returns (run: seq<State>, labels: seq<Label>)
    requires c.Valid() && Init(c, s) && b <= c.plan[0].hi - c.plan[0].lo
    ensures IsRun(c, run, labels) && run[0] == s && run[|labels|] == AfterBytes(c, s, b)
  {
    if b == 0 {
      run, labels := [s], [];
      FetchedNothing(c, s);
    } else {
      var n := if b < c.maxCallback then b else c.maxCallback;
      run, labels := FetchesAll(c, s, b - n);
      run, labels := FetchesMore(c, run, labels, b - n, n);
    }
  }

  lemma RunShape(c: Config, run: seq<State>, labels: seq<Label>)
    requires c.Valid() && IsRun(c, run, labels)
    ensures Shape(c, run[|labels|])
  {
    RunSafe(c, run, labels, |labels|);
  }

  /** The state in which worker 0 has its whole interval and looks for more. */
  ghost function AfterFirst(c: Config, s: State): State
    requires InitPool(c, s)
  {
    var t := s.slots[0];
    var b := t.liveEnd - t.start;
    s.(file := WriteAt(s.file, t.start, c.content[t.start..t.liveEnd]),
       slots := s.slots[0 := t.(writePos := t.liveEnd, exhausted := true, claimed := false)],
       downloaded := s.downloaded + b,
       live := s.live[t.progress := s.live[t.progress] + b],
       workers := s.workers[0 := s.workers[0].(bytesDone := b, pc := Idle)])
  }

  lemma FirstStops(c: Config, s: State, t: State)
    requires InitPool(c, s) && t == AfterBytes(c, s, c.plan[0].hi - c.plan[0].lo) && Shape(c, t)
    ensures Exec(c, t, 0, [Stop(true)]) == Some(SetPc(t, 0, Ended(true)))
  {
    assert Exec(c, t, 0, []) == Some(t);
    assert t.workers[0].pc == Streaming;
    ExecAgain(c, t, 0, [], t, Stop(true));
    assert [] + [Stop(true)] == [Stop(true)];
  }

  lemma PassTrace(c: Config, u: State)
    requires Shape(c, u) && u.mutex.None? && 0 < |u.workers| && u.workers[0].pc.Ended? && TestPasses(u, 0, true)
    ensures Exec(c, u, 0, [Test(true), MarkDone]) == Some(Finished(u, 0))
  {
    TestTrace(c, u, 0, true);
  }

  lemma FirstPasses(c: Config, s: State, u: State)
    requires InitPool(c, s) && u == SetPc(AfterBytes(c, s, c.plan[0].hi - c.plan[0].lo), 0, Ended(true))
    ensures u.mutex.None? && TestPasses(u, 0, true) && Finished(u, 0) == AfterFirst(c, s)
  {
    assert u.workers[0] == Worker(0, c.plan[0].lo, c.plan[0].hi, c.plan[0].hi - c.plan[0].lo, false, Ended(true));
    assert Finished(u, 0).slots == AfterFirst(c, s).slots;
    assert Finished(u, 0).workers == AfterFirst(c, s).workers;
  }

  lemma FirstFinishes(c: Config, s: State) returns (run: seq<State>, labels: seq<Label>)
    requires c.Valid() && Init(c, s)
    ensures IsRun(c, run, labels) && run[0] == s && run[|labels|] == AfterFirst(c, s)
  {
    run, labels := FetchesAll(c, s, c.plan[0].hi - c.plan[0].lo);
    var t := run[|labels|];
    RunShape(c, run, labels);
    FirstStops(c, s, t);
    run, labels := RunFurther(c, run, labels, 0, [Stop(true)]);
    RunShape(c, run, labels);
    FirstPasses(c, s, run[|labels|]);
    PassTrace(c, run[|labels|]);
    run, labels := RunFurther(c, run, labels, 0, [Test(true), MarkDone]);
  }

  /** It finds no orphan, and of the slots the one with the most bytes left. */
  lemma FirstSearches(c: Config, s: State) returns (run: seq<State>, labels: seq<Label>)
    requires c.Valid() && Init(c, s)
    ensures IsRun(c, run, labels) && run[0] == s && |run[|labels|].slots| == |s.slots|
    ensures var t := AfterFirst(c, s);
      var (best, remaining) := Victim(t.slots, |t.slots|);
      Some(run[|labels|]) == Some(if best == -1 || remaining < c.minSteal || |t.slots| >= MAX_WORKERS then Gone(t, 0)
                                  else Held(t, 0, Chosen(best)))
  {
    var t := AfterFirst(c, s);
    run, labels := FirstFinishes(c, s);
    RunSafe(c, run, labels, |labels|);
    var (best, remaining) := Victim(t.slots, |t.slots|);
    SearchTrace(c, t, 0);
    BusiestEnd(c, t, 0, SearchSteps(|t.slots|), best, remaining);
    run, labels := RunFurther(c, run, labels, 0, SearchSteps(|t.slots|) + [ScanBusiest]);
  }

  // ----- a partial plan -----

  /** A crash after the first of several inserts of a fresh plan, followed, for any configuration, by a run in
      which nothing goes wrong: the download completes with a file of the right size, and with the wrong content
      exactly when a byte past the first range was not right already. */
  lemma PartialPlanCompletesWrong(content: seq<Byte>, d: Disk, left: Disk, c: Config)
      returns (run: seq<State>, labels: seq<Label>, after: Progress)
    requires FreshPlan(content, d) && |d.chunks| > 1 && CrashedInPlanning(d, 1, Kept(left))
    requires Configured(c, content, left) && c.splits && !c.freshPlan
    ensures RunEnds(content, false, left, c, run, labels, after)
    ensures after.Completed? && |after.file| == |content|
    ensures after.file != content <==> exists k :: d.chunks[0].end <= k < |content| && d.file[k] != content[k]
  {
    OneChunkLeft(content, d, left);
    var s := StartState(left, 0);
    StartIsInit(c, content, left, 0);
    run, labels := FirstSearches(c, s);
    var t := AfterFirst(c, s);
    VictimBounds(t.slots, 1);
    after := Completed(t.file);
    var end := d.chunks[0].end;
    assert forall k :: 0 <= k < |content| ==> t.file[k] == if k < end then content[k] else d.file[k];
  }

  lemma OneChunkLeft(content: seq<Byte>, d: Disk, left: Disk)
    requires FreshPlan(content, d) && |d.chunks| > 1 && CrashedInPlanning(d, 1, Kept(left))
    ensures Honest(content, left) && Splittable(left) && left.file == d.file
    ensures 0 < d.chunks[0].end < |content| && PlanOf(left) == [Interval(0, d.chunks[0].end)]
  {
    FreshIsSound(content, d);
    FirstEndsEarly(content, d);
    assert d.chunks[..1] == [d.chunks[0]] && d.chunks[0] in d.chunks;
    OneIs(left.chunks, d.chunks[0]);
    AllIncomplete(left.chunks);
    assert PlanOf(left) == [Interval(0, d.chunks[0].end)];
  }

  lemma OneIs(chunks: seq<SavedChunk>, ch: SavedChunk)
    requires multiset(chunks) == multiset([ch])
    ensures chunks == [ch]
  {
    assert |multiset(chunks)| == |chunks| == 1;
    assert chunks[0] in multiset(chunks);
  }

  lemma FirstEndsEarly(content: seq<Byte>, d: Disk)
    requires FreshPlan(content, d) && |d.chunks| > 1
    ensures d.chunks[0].start == 0 && d.chunks[0].done == 0 && 0 < d.chunks[0].end < |content|
  {
    var total, workers := |content|, S.ChooseWorkerCount(|content|);
    S.PlanIsContiguous(total, workers, 0);
    S.PlanIsContiguous(total, workers, 1);
  }

  // ----- a crash inside a split -----

  /** A fresh plan of two to seven intervals, one of the later ones worth splitting, has a run that
      reaches the point between the two statements that persist a split. What a crash leaves there
      does not cover the file. */
  lemma SplitMissesTail(c: Config, content: seq<Byte>, d: Disk, i: nat)
      returns (run: seq<State>, labels: seq<Label>)
    requires FreshPlan(content, d) && Configured(c, content, d) && c.freshPlan && c.atomicSteals
    requires 1 <= i < |c.plan| < MAX_WORKERS && c.plan[i].hi - c.plan[i].lo >= c.minSteal
    ensures RunFrom(c, content, d, run, labels) && BetweenStatements(run[|labels|])
    ensures !Sound(content, Persisted(run[|labels|]))
  {
    FreshIsSound(content, d);
    var s := StartState(d, 0);
    StartIsInit(c, content, d, 0);
    run, labels := FirstSearches(c, s);
    var t := AfterFirst(c, s);
    var (best, remaining) := Victim(t.slots, |t.slots|);
    VictimBounds(t.slots, |t.slots|);
    assert Left(t.slots[i]) >= c.minSteal;
    run, labels := FirstCuts(c, t, best, run, labels);
    CrashSoundExactly(c, content, d, run, labels, |labels|);
  }

  lemma FirstCuts(c: Config, t: State, v: nat, run0: seq<State>, labels0: seq<Label>)
      returns (run: seq<State>, labels: seq<Label>)
    requires c.Valid() && c.splits && IsRun(c, run0, labels0) && v < |t.slots| < MAX_WORKERS && 0 < |t.workers|
    requires run0[|labels0|] == Held(t, 0, Chosen(v))
    ensures IsRun(c, run, labels) && run[0] == run0[0] && BetweenStatements(run[|labels|])
  {
    var h := Held(t, 0, Chosen(v));
    RunSafe(c, run0, labels0, |labels0|);
    assert Exec(c, h, 0, []) == Some(h);
    assert Held(h, 0, Chosen(v)) == h;
    CutSteps(c, h, 0, v, []);
    var acts := [RereadPos, ShrinkVictim, AppendSlot];
    assert [] + acts == acts;
    run, labels := RunFurther(c, run0, labels0, 0, acts);
    RunSafe(c, run, labels, |labels|);
    var u := run[|labels|];
    assert u.workers[0].pc.Appended?;
    assert Exec(c, u, 0, []) == Some(u);
    ExecAgain(c, u, 0, [], u, MirrorVictim);
    assert [] + [MirrorVictim] == [MirrorVictim];
    run, labels := RunFurther(c, run, labels, 0, [MirrorVictim]);
    assert run[|labels|].workers[0].pc.Between?;
  }

  /** Of a fresh download with atomic steals, whatever the run: what a crash leaves is sound exactly
      outside those points. */
  lemma CrashSoundExactly(c: Config, content: seq<Byte>, d: Disk, run: seq<State>, labels: seq<Label>, n: nat)
    requires FreshPlan(content, d) && RunFrom(c, content, d, run, labels) && c.freshPlan && c.atomicSteals
    requires n < |run|
    ensures Sound(content, Persisted(run[n])) <==> !BetweenStatements(run[n])
  {
    FreshIsSound(content, d);
    if BetweenStatements(run[n]) {
      TailIsLost(c, run, labels, n);
      var s := run[n];
      var k: nat :| k < |content| && !InSomeRow(s, k);
      InRows(s, k);
    } else {
      StopIsSound(c, content, d, run, labels, n);
    }
  }

  lemma InRows(s: State, k: nat)
    ensures InChunks(Persisted(s), k) <==> InSomeRow(s, k)
  {
    if InChunks(Persisted(s), k) {
      var ch :| ch in Persisted(s).chunks && ch.start <= k < ch.end;
      var j :| 0 <= j < |s.rows| && Persisted(s).chunks[j] == ch;
      assert s.rows[j].start <= k < s.rows[j].end;
    }
    if j :| 0 <= j < |s.rows| && s.rows[j].start <= k < s.rows[j].end {
      assert Persisted(s).chunks[j] in Persisted(s).chunks;
    }
  }

  lemma TailIsLost(c: Config, run: seq<State>, labels: seq<Label>, n: nat)
    requires Atomic(c) && c.freshPlan && IsRun(c, run, labels) && n < |run| && BetweenStatements(run[n])
    ensures exists k: nat :: k < |c.content| && !InSomeRow(run[n], k)
  {
    RunTight(c, run, labels, n);
    var s := run[n];
    var w :| 0 <= w < |s.workers| && s.workers[w].pc.Between?;
    TailInNoRow(c, s, w);
    assert !InSomeRow(s, s.workers[w].pc.split);
  }
}
