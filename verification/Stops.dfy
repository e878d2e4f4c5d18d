/** What a stopped run saves: everything it counted. */
module Stops {
  import opened Common
  import opened Transfer
  import opened TransferSafety
  import opened TransferCoverage
  import opened TransferClaims
  import opened TransferAtomic
  import opened TransferCalm
  import opened TransferCounts
  import opened Engine

  // ----- every counted byte is in the done prefix of its chunk -----

  /** Without splits the slots stay the ones the run began with. */
  ghost predicate SameSlots(s: State, s': State) {
    |s'.slots| == |s.slots| && forall i :: 0 <= i < |s.slots| ==>
      s'.slots[i].start == s.slots[i].start && s'.slots[i].liveEnd == s.slots[i].liveEnd
      && s'.slots[i].progress == s.slots[i].progress
  }

  lemma NextKeepsSlots(c: Config, s: State, l: Label, s': State)
    requires !c.splits && Next(c, s, l, s') && Safe(c, s) && Claims(c, s)
    ensures SameSlots(s, s')
  {
    if l.Act? {
      if s.workers[l.w].pc.Owns() { OwnerKeepsSlots(c, s, l.w, l.action); } else { ThiefKeepsSlots(c, s, l.w, l.action); }
    }
  }

  lemma OwnerKeepsSlots(c: Config, s: State, w: nat, a: Action)
    requires !c.splits && Safe(c, s) && Claims(c, s) && Can(c, s, w, a) && s.workers[w].pc.Owns()
    ensures SameSlots(s, Do(c, s, w, a))
  {
  }

  lemma ThiefKeepsSlots(c: Config, s: State, w: nat, a: Action)
    requires !c.splits && Safe(c, s) && Claims(c, s) && Can(c, s, w, a) && !s.workers[w].pc.Owns()
    ensures SameSlots(s, Do(c, s, w, a))
  {
  }

  lemma {:induction false} RunKeepsSlots(c: Config, run: seq<State>, labels: seq<Label>, n: nat)
    requires c.Valid() && !c.splits && IsRun(c, run, labels) && n < |run|
    ensures SameSlots(run[0], run[n])
  {
    if n > 0 {
      RunKeepsSlots(c, run, labels, n - 1);
      RunClaims(c, run, labels, n - 1);
      NextKeepsSlots(c, run[n - 1], labels[n - 1], run[n]);
    }
  }

  /** Every slot has a chunk once the workers are gone. */
  lemma SlotHasChunk(c: Config, run: seq<State>, labels: seq<Label>, n: nat, i: nat)
    requires c.Valid() && IsRun(c, run, labels) && n < |run| && AllExited(run[n]) && i < |run[n].slots|
    ensures 0 <= run[n].slots[i].progress < |run[n].chunks|
    ensures c.splits ==> |run[n].chunks| == |run[n].slots| && run[n].slots[i].progress == i
  {
    RunClaims(c, run, labels, n);
    var s := run[n];
    assert s.mutex.None?;
    assert LinkAt(c, s, i);
    if !c.splits { RunKeepsSlots(c, run, labels, n); }
  }

  /** When the workers are gone, what a slot has received is in the done prefix of its chunk, to the last byte,
      in what the stop leaves. */
  lemma StopKeepsReceived(
    c: Config, content: seq<Byte>, d: Disk, run: seq<State>, labels: seq<Label>, i: nat)
    requires RunFrom(c, content, d, run, labels) && AllExited(run[|labels|]) && i < |run[|labels|].slots|
    ensures |run[|labels|].live| == |run[|labels|].chunks|
    ensures var s := run[|labels|];
      var p, left := s.slots[i].progress, Flushed(s).chunks;
      0 <= p < |left| && left[p].start <= s.slots[i].start <= s.slots[i].writePos == left[p].start + left[p].done
  {
    var s := run[|labels|];
    SlotHasChunk(c, run, labels, |labels|, i);
    RunClaims(c, run, labels, |labels|);
    assert LinkAt(c, s, i) && SlotAt(c, s, i);
  }

  lemma NextKeepsLive(c: Config, s: State, l: Label, s': State)
    requires Next(c, s, l, s')
    ensures LiveGrows(s, s')
  {
    if l.Act? {
      if l.action.CountChunk? {
        CountGrows(c, s, l.w);
      } else if l.action.MirrorTail? {
        TailGrows(c, s, l.w);
      } else {
        SameLive(c, s, l.w, l.action);
      }
    }
  }

  lemma CountGrows(c: Config, s: State, w: nat)
    requires Shape(c, s) && Can(c, s, w, CountChunk)
    ensures LiveGrows(s, Do(c, s, w, CountChunk))
  {
  }

  lemma TailGrows(c: Config, s: State, w: nat)
    requires Shape(c, s) && Can(c, s, w, MirrorTail)
    ensures LiveGrows(s, Do(c, s, w, MirrorTail))
  {
  }

  lemma SameLive(c: Config, s: State, w: nat, a: Action)
    requires Shape(c, s) && Can(c, s, w, a) && !a.CountChunk? && !a.MirrorTail?
    ensures Do(c, s, w, a).live == s.live
  {
  }

  lemma {:induction false} RunKeepsLive(c: Config, run: seq<State>, labels: seq<Label>, n: nat)
    requires IsRun(c, run, labels) && n < |run|
    ensures LiveGrows(run[0], run[n])
  {
    if n > 0 {
      RunKeepsLive(c, run, labels, n - 1);
      StepKeepsLive(c, run, labels, n - 1);
      GrowsOn(run[0], run[n - 1], run[n]);
    }
  }

  lemma StepKeepsLive(c: Config, run: seq<State>, labels: seq<Label>, n: nat)
    requires IsRun(c, run, labels) && n < |labels|
    ensures LiveGrows(run[n], run[n + 1])
  {
    NextKeepsLive(c, run[n], labels[n], run[n + 1]);
  }

  ghost predicate LiveGrows(s: State, t: State) {
    |t.live| >= |s.live| && forall j :: 0 <= j < |s.live| ==> t.live[j] >= s.live[j]
  }

  lemma GrowsOn(s: State, t: State, u: State)
    requires LiveGrows(s, t) && LiveGrows(t, u)
    ensures LiveGrows(s, u)
  {
  }

  /** At no point of a run would a stop take back what was saved before it. */
  lemma StopKeepsDone(
    c: Config, content: seq<Byte>, d: Disk, run: seq<State>, labels: seq<Label>, n: nat, j: nat)
    requires RunFrom(c, content, d, run, labels) && n < |run| && j < |d.chunks|
    ensures |run[n].live| == |run[n].chunks| && j < |run[n].chunks|
    ensures Flushed(run[n]).chunks[j].start == d.chunks[j].start
    ensures Flushed(run[n]).chunks[j].done >= d.chunks[j].done
  {
    RunSafe(c, run, labels, n);
    RunKeepsStarts(c, run, labels, n);
    RunKeepsLive(c, run, labels, n);
  }

  // ----- what a crash finds -----

  /** The step is no save of a chunk that starts at `start`. */
  predicate NoSaveAt(s: State, l: Label, start: nat) {
    l.Save? && l.j < |s.chunks| ==> s.chunks[l.j].start != start
  }

  lemma NextKeepsSaved(c: Config, s: State, l: Label, s': State, j: nat)
    requires Safe(c, s) && Claims(c, s) && Next(c, s, l, s') && j < |s.rows| && NoSaveAt(s, l, s.rows[j].start)
    ensures j < |s'.rows| && s'.rows[j].start == s.rows[j].start && s'.rows[j].saved == s.rows[j].saved
  {
    if l.Act? { ActKeepsSaved(c, s, l.w, l.action, j); }
  }

  lemma ActKeepsSaved(c: Config, s: State, w: nat, a: Action, j: nat)
    requires Safe(c, s) && Can(c, s, w, a) && j < |s.rows|
    ensures var r := Do(c, s, w, a).rows; j < |r| && r[j].start == s.rows[j].start && r[j].saved == s.rows[j].saved
  {
  }

  lemma SaveStands(c: Config, run: seq<State>, labels: seq<Label>, x: nat, j: nat, v: nat)
    requires c.Valid() && IsRun(c, run, labels) && x < |labels| && labels[x] == Save(j, v) && j < |run[x].chunks|
    ensures j < |run[x + 1].rows| && run[x + 1].rows[j].start == run[x].chunks[j].start && run[x + 1].rows[j].saved == v
  {
    RunClaims(c, run, labels, x);
    assert Next(c, run[x], labels[x], run[x + 1]);
    assert ChunkAt(c, run[x], j);
  }

  lemma StepKeepsSaved(c: Config, run: seq<State>, labels: seq<Label>, y: nat, j: nat)
    requires c.Valid() && IsRun(c, run, labels) && y < |labels| && j < |run[y].rows|
    requires NoSaveAt(run[y], labels[y], run[y].rows[j].start)
    ensures j < |run[y + 1].rows|
    ensures run[y + 1].rows[j].start == run[y].rows[j].start && run[y + 1].rows[j].saved == run[y].rows[j].saved
  {
    RunClaims(c, run, labels, y);
    NextKeepsSaved(c, run[y], labels[y], run[y + 1], j);
  }

  /** What the daemon saved last for a chunk is what a crash finds there. */
  lemma {:induction false} LastSaveStands(c: Config, run: seq<State>, labels: seq<Label>, x: nat, n: nat, j: nat, v: nat)
    requires c.Valid() && IsRun(c, run, labels) && x < n < |run| && labels[x] == Save(j, v) && j < |run[x].chunks|
    requires forall y :: x < y < n ==> NoSaveAt(run[y], labels[y], run[x].chunks[j].start)
    ensures j < |run[n].rows| && run[n].rows[j].start == run[x].chunks[j].start
    ensures Persisted(run[n]).chunks[j].done == v
  {
    if n == x + 1 {
      SaveStands(c, run, labels, x, j, v);
    } else {
      LastSaveStands(c, run, labels, x, n - 1, j, v);
      StepKeepsSaved(c, run, labels, n - 1, j);
    }
  }

  // ----- what is left to fetch -----

  function Fetching(d: Disk): int { Sum(PlanLengths(PlanOf(d))) }

  /** Bytes a chunk still misses. */
  function Missing(ch: SavedChunk): int { if Complete(ch) then 0 else ch.end - ch.start - ch.done }

  function AllMissing(chunks: seq<SavedChunk>): seq<int> {
    seq(|chunks|, j requires 0 <= j < |chunks| => Missing(chunks[j]))
  }

  function AtIncomplete(chunks: seq<SavedChunk>, f: nat -> int): seq<int> {
    var r := Incomplete(chunks); seq(|r|, i requires 0 <= i < |r| => f(r[i]))
  }

  function AtAll(chunks: seq<SavedChunk>, f: nat -> int): seq<int> {
    seq(|chunks|, j requires 0 <= j < |chunks| => if Complete(chunks[j]) then 0 else f(j))
  }

  /** Summing over the incomplete chunks is summing over all, the others at zero. */
  lemma {:induction false} SumIncomplete(chunks: seq<SavedChunk>, f: nat -> int)
    ensures Sum(AtIncomplete(chunks, f)) == Sum(AtAll(chunks, f))
  {
    if chunks != [] {
      var n := |chunks| - 1;
      SumIncomplete(chunks[..n], f);
      SumAppend(AtAll(chunks[..n], f), if Complete(chunks[n]) then 0 else f(n));
      assert AtAll(chunks, f) == AtAll(chunks[..n], f) + [if Complete(chunks[n]) then 0 else f(n)];
      if Complete(chunks[n]) {
        assert AtIncomplete(chunks, f) == AtIncomplete(chunks[..n], f);
      } else {
        SumAppend(AtIncomplete(chunks[..n], f), f(n));
        assert AtIncomplete(chunks, f) == AtIncomplete(chunks[..n], f) + [f(n)];
      }
    }
  }

  lemma FetchingIsMissing(d: Disk)
    ensures Fetching(d) == Sum(AllMissing(d.chunks))
  {
    var f := (j: nat) => if j < |d.chunks| then d.chunks[j].end - d.chunks[j].start - d.chunks[j].done else 0;
    SumIncomplete(d.chunks, f);
    assert PlanLengths(PlanOf(d)) == AtIncomplete(d.chunks, f);
    assert AllMissing(d.chunks) == AtAll(d.chunks, f);
  }

  function Spans(chunks: seq<SavedChunk>): seq<int> {
    seq(|chunks|, j requires 0 <= j < |chunks| => chunks[j].end - chunks[j].start)
  }

  /** What a resume counts as done and what it plans to fetch make up the chunks. */
  lemma {:induction false} ResumeAddsUp(d: Disk)
    ensures AlreadyDone(d.chunks) + Fetching(d) == Sum(Spans(d.chunks))
  {
    FetchingIsMissing(d);
    DoneAndMissing(d.chunks);
  }

  lemma {:induction false} DoneAndMissing(chunks: seq<SavedChunk>)
    ensures AlreadyDone(chunks) + Sum(AllMissing(chunks)) == Sum(Spans(chunks))
  {
    if chunks != [] {
      var n := |chunks| - 1;
      DoneAndMissing(chunks[..n]);
      SumAppend(AllMissing(chunks[..n]), Missing(chunks[n]));
      SumAppend(Spans(chunks[..n]), chunks[n].end - chunks[n].start);
      assert AllMissing(chunks) == AllMissing(chunks[..n]) + [Missing(chunks[n])];
      assert Spans(chunks) == Spans(chunks[..n]) + [chunks[n].end - chunks[n].start];
    }
  }

  ghost predicate NoOverrun(s: State) {
    forall i :: 0 <= i < |s.slots| ==> s.slots[i].writePos <= s.slots[i].liveEnd
  }

  /** What the slots still miss. */
  function Unwritten(slots: seq<Slot>): seq<int> {
    seq(|slots|, i requires 0 <= i < |slots| => slots[i].liveEnd - slots[i].writePos)
  }

  lemma {:induction false} SumDifference(xs: seq<int>, ys: seq<int>, zs: seq<int>)
    requires |xs| == |ys| == |zs| && forall i :: 0 <= i < |xs| ==> zs[i] == xs[i] - ys[i]
    ensures Sum(zs) == Sum(xs) - Sum(ys)
  {
    if xs != [] { SumDifference(xs[1..], ys[1..], zs[1..]); }
  }

  /** At the end of a run the slots miss the plan less what the run counted. */
  lemma UnwrittenIs(c: Config, run: seq<State>, labels: seq<Label>)
    requires c.Valid() && IsRun(c, run, labels) && AllExited(run[|labels|])
    ensures var s := run[|labels|];
      Sum(Unwritten(s.slots)) == Sum(PlanLengths(c.plan)) - (s.downloaded - run[0].downloaded)
  {
    var s := run[|labels|];
    RunSafe(c, run, labels, |labels|);
    RunCounted(c, run, labels, |labels|);
    assert s.mutex.None? && Pending(s) == Interval(0, 0);
    SumZero(InFlight(s.workers));
    SumDifference(Lengths(s.slots), Received(s.slots), Unwritten(s.slots));
  }

  /** Pointwise: a chunk misses what its slot does, and what lies past the slot's end. */
  lemma ChunksMiss(c: Config, content: seq<Byte>, d: Disk, run: seq<State>, labels: seq<Label>, j: nat)
    requires RunFrom(c, content, d, run, labels) && c.splits
    requires AllExited(run[|labels|]) && NoOverrun(run[|labels|]) && j < |run[|labels|].slots|
    ensures var s := run[|labels|];
      && |s.live| == |s.chunks| == |s.slots|
      && AllMissing(Flushed(s).chunks)[j] == Unwritten(s.slots)[j] + (s.chunks[j].end - s.slots[j].liveEnd)
      && s.slots[j].liveEnd <= s.chunks[j].end
  {
    SlotHasChunk(c, run, labels, |labels|, j);
    SlotMissing(c, content, d, run, labels, j);
  }

  /** With splits: what is left to fetch is at least the plan less what the run counted, and exactly that if
      and only if every chunk ends where its slot does. */
  lemma StopLeavesRest(c: Config, content: seq<Byte>, d: Disk, run: seq<State>, labels: seq<Label>)
    requires RunFrom(c, content, d, run, labels) && c.splits
    requires AllExited(run[|labels|]) && NoOverrun(run[|labels|])
    ensures var s := run[|labels|];
      && |s.live| == |s.chunks| == |s.slots|
      && var rest := Sum(PlanLengths(c.plan)) - (s.downloaded - run[0].downloaded);
         && Fetching(Flushed(s)) >= rest
         && (Fetching(Flushed(s)) == rest <==> forall j :: 0 <= j < |s.slots| ==> s.chunks[j].end == s.slots[j].liveEnd)
  {
    var s := run[|labels|];
    SlotsNotEmpty(c, run, labels);
    SlotHasChunk(c, run, labels, |labels|, 0);
    StopKeepsReceived(c, content, d, run, labels, 0);
    UnwrittenIs(c, run, labels);
    FetchingIsMissing(Flushed(s));
    var xs, ys := Unwritten(s.slots), AllMissing(Flushed(s).chunks);
    forall j | 0 <= j < |xs|
      ensures ys[j] == xs[j] + (s.chunks[j].end - s.slots[j].liveEnd) && s.slots[j].liveEnd <= s.chunks[j].end
    {
      ChunksMiss(c, content, d, run, labels, j);
    }
    SumOrder(xs, ys);
    assert xs == ys <==> forall j :: 0 <= j < |xs| ==> xs[j] == ys[j];
  }

  lemma SlotsNotEmpty(c: Config, run: seq<State>, labels: seq<Label>)
    requires c.Valid() && IsRun(c, run, labels)
    ensures |run[|labels|].slots| > 0
  {
    RunSafe(c, run, labels, |labels|);
  }

  lemma SlotMissing(c: Config, content: seq<Byte>, d: Disk, run: seq<State>, labels: seq<Label>, i: nat)
    requires RunFrom(c, content, d, run, labels) && AllExited(run[|labels|]) && NoOverrun(run[|labels|])
    requires i < |run[|labels|].slots|
    ensures |run[|labels|].live| == |run[|labels|].chunks|
    ensures var s := run[|labels|];
      var p := s.slots[i].progress;
      && 0 <= p < |s.chunks| && s.slots[i].liveEnd <= s.chunks[p].end
      && Missing(Flushed(s).chunks[p]) == s.chunks[p].end - s.slots[i].writePos
  {
    StopKeepsReceived(c, content, d, run, labels, i);
    RunClaims(c, run, labels, |labels|);
    assert LinkAt(c, run[|labels|], i);
  }

  /** Without splits a chunk that was finished stays so, and any other misses what its slot does. */
  lemma UnsplitChunkMisses(c: Config, content: seq<Byte>, d: Disk, run: seq<State>, labels: seq<Label>, j: nat)
    requires RunFrom(c, content, d, run, labels) && !c.splits && j < |d.chunks|
    ensures var s := run[|labels|];
      && |s.live| == |s.chunks| == |d.chunks|
      && (Complete(d.chunks[j]) ==> Missing(Flushed(s).chunks[j]) == 0)
  {
    RunSafe(c, run, labels, |labels|);
    ResumeKeepsTables(c, run, labels, |labels|);
    StopKeepsDone(c, content, d, run, labels, |labels|, j);
  }

  lemma UnsplitSlotMisses(c: Config, content: seq<Byte>, d: Disk, run: seq<State>, labels: seq<Label>, i: nat)
    requires RunFrom(c, content, d, run, labels) && !c.splits && i < |c.plan|
    requires AllExited(run[|labels|]) && NoOverrun(run[|labels|])
    ensures var s := run[|labels|];
      && |s.live| == |s.chunks| == |d.chunks| && |s.slots| == |c.plan| == |Incomplete(d.chunks)|
      && Missing(Flushed(s).chunks[Incomplete(d.chunks)[i]]) == s.slots[i].liveEnd - s.slots[i].writePos
  {
    RunKeepsSlots(c, run, labels, |labels|);
    ResumeKeepsTables(c, run, labels, |labels|);
    SlotMissing(c, content, d, run, labels, i);
    IncompleteFacts(d.chunks);
  }

  /** Without splits: exactly the plan less what the run counted. */
  lemma UnsplitStopLeavesRest(c: Config, content: seq<Byte>, d: Disk, run: seq<State>, labels: seq<Label>)
    requires RunFrom(c, content, d, run, labels) && !c.splits
    requires AllExited(run[|labels|]) && NoOverrun(run[|labels|])
    ensures var s := run[|labels|];
      && |s.live| == |s.chunks|
      && Fetching(Flushed(s)) == Sum(PlanLengths(c.plan)) - (s.downloaded - run[0].downloaded)
  {
    var s := run[|labels|];
    RunSafe(c, run, labels, |labels|);
    UnsplitSlotsMiss(c, content, d, run, labels);
    UnsplitChunksMiss(c, content, d, run, labels);
    UnwrittenIs(c, run, labels);
    FetchingIsMissing(Flushed(s));
    SumIncomplete(d.chunks, MissingAt(Flushed(s).chunks));
  }

  function MissingAt(chunks: seq<SavedChunk>): nat -> int {
    (j: nat) => if j < |chunks| then Missing(chunks[j]) else 0
  }

  lemma UnsplitChunksMiss(c: Config, content: seq<Byte>, d: Disk, run: seq<State>, labels: seq<Label>)
    requires RunFrom(c, content, d, run, labels) && !c.splits && |run[|labels|].live| == |run[|labels|].chunks|
    ensures var left := Flushed(run[|labels|]).chunks; AllMissing(left) == AtAll(d.chunks, MissingAt(left))
  {
    ResumeKeepsTables(c, run, labels, |labels|);
    var left := Flushed(run[|labels|]).chunks;
    forall j | 0 <= j < |left| ensures AllMissing(left)[j] == AtAll(d.chunks, MissingAt(left))[j] {
      UnsplitChunkMisses(c, content, d, run, labels, j);
    }
  }

  lemma UnsplitSlotsMiss(c: Config, content: seq<Byte>, d: Disk, run: seq<State>, labels: seq<Label>)
    requires RunFrom(c, content, d, run, labels) && !c.splits && |run[|labels|].live| == |run[|labels|].chunks|
    requires AllExited(run[|labels|]) && NoOverrun(run[|labels|])
    ensures var s := run[|labels|]; Unwritten(s.slots) == AtIncomplete(d.chunks, MissingAt(Flushed(s).chunks))
  {
    RunKeepsSlots(c, run, labels, |labels|);
    var s := run[|labels|];
    forall i | 0 <= i < |c.plan| ensures Unwritten(s.slots)[i] == AtIncomplete(d.chunks, MissingAt(Flushed(s).chunks))[i] {
      UnsplitSlotMisses(c, content, d, run, labels, i);
    }
  }

  /** A fresh download with atomic steals that stops, no slot overrun, loses nothing: the next run counts as done
      what this one had counted, and plans to fetch the rest of the file. */
  lemma FreshStopLosesNothing(c: Config, content: seq<Byte>, d: Disk, run: seq<State>, labels: seq<Label>)
    requires FreshPlan(content, d) && RunFrom(c, content, d, run, labels) && c.freshPlan && c.atomicSteals
    requires AllExited(run[|labels|]) && NoOverrun(run[|labels|])
    ensures var s := run[|labels|];
      && |s.live| == |s.chunks|
      && Fetching(Flushed(s)) == |content| - s.downloaded
      && AlreadyDone(Flushed(s).chunks) == s.downloaded
  {
    FreshTables(c, run, labels);
    StopLeavesRest(c, content, d, run, labels);
    PlanAddsUp(content, d);
    ResumeAddsUp(Flushed(run[|labels|]));
    FreshSpans(c, run, labels);
  }

  lemma FreshSpans(c: Config, run: seq<State>, labels: seq<Label>)
    requires IsRun(c, run, labels) && Atomic(c) && c.freshPlan && AllExited(run[|labels|])
    ensures |run[|labels|].live| == |run[|labels|].chunks|
    ensures Sum(Spans(Flushed(run[|labels|]).chunks)) == Sum(PlanLengths(c.plan))
  {
    var s := run[|labels|];
    FreshTables(c, run, labels);
    SpansAddUp(c, run, labels);
    assert Spans(Flushed(s).chunks) == Lengths(s.slots);
  }

  lemma FreshTables(c: Config, run: seq<State>, labels: seq<Label>)
    requires IsRun(c, run, labels) && Atomic(c) && c.freshPlan && AllExited(run[|labels|])
    ensures var s := run[|labels|];
      && |s.chunks| == |s.slots| == |s.live|
      && forall i :: 0 <= i < |s.slots| ==> s.chunks[i] == Chunk(s.slots[i].start, s.slots[i].liveEnd)
  {
    RunSafe(c, run, labels, |labels|);
    assert run[|labels|].mutex.None?;
    TablesAgree(c, run, labels, |labels|);
  }

  lemma SpansAddUp(c: Config, run: seq<State>, labels: seq<Label>)
    requires c.Valid() && IsRun(c, run, labels) && AllExited(run[|labels|])
    ensures Sum(Lengths(run[|labels|].slots)) == Sum(PlanLengths(c.plan))
  {
    RunCounted(c, run, labels, |labels|);
    RunSafe(c, run, labels, |labels|);
    assert run[|labels|].mutex.None? && Pending(run[|labels|]) == Interval(0, 0);
  }

  /** With small callbacks besides no slot is ever overrun. */
  lemma CalmStopLosesNothing(c: Config, content: seq<Byte>, d: Disk, run: seq<State>, labels: seq<Label>)
    requires FreshPlan(content, d) && RunFrom(c, content, d, run, labels) && c.freshPlan && Calm(c)
    requires AllExited(run[|labels|])
    ensures var s := run[|labels|];
      && |s.live| == |s.chunks|
      && Fetching(Flushed(s)) == |content| - s.downloaded
      && AlreadyDone(Flushed(s).chunks) == s.downloaded
  {
    CalmSuccessCountsExactly(c, run, labels);
    assert NoOverrun(run[|labels|]);
    FreshStopLosesNothing(c, content, d, run, labels);
  }
}
