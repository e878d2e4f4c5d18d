/** No reachable state of a run with splits is stuck. */
module TransferProgress {
  import opened Common
  import opened Transfer
  import opened TransferSafety
  import opened TransferClaims
  import opened TransferCounts

  /** Some step of worker `w` is possible. */
  ghost predicate CanMove(c: Config, s: State, w: nat)
    requires Shape(c, s)
  {
    exists a :: Can(c, s, w, a)
  }

  /** The worker needs the mutex that another one holds. */
  predicate Waits(c: Config, s: State, w: nat)
    requires w < |s.workers|
  {
    s.mutex.Some? && s.mutex.value != w && (c.atomicSteals || s.workers[w].pc.Idle? || s.workers[w].pc.Passed?)
  }

  /** The step a worker takes next: of a request, that it ends. */
  function NextStep(pc: Pc): Action
    requires !pc.Exited?
  {
    match pc
    case Streaming => Stop(false)
    case Loaded(_, _) => WriteFile
    case Written(_, _) => CountBytes
    case BytesCounted(_, _) => CountPos
    case PosCounted(_, _) => CountTotal
    case TotalCounted(_, _) => CountChunk
    case Ended(_) => Test(false)
    case Passed => MarkDone
    case Idle => Lock
    case Orphans(_) => ScanOrphan
    case Busiest(_, _, _) => ScanBusiest
    case Chosen(_) => RereadPos
    case Reread(_, _) => ShrinkVictim
    case Shrunk(_, _, _) => AppendSlot
    case Appended(_, _, _) => MirrorVictim
    case Between(_, _, _) => MirrorTail
  }

  lemma MovesUnlessWaiting(c: Config, s: State, w: nat)
    requires c.splits && Safe(c, s) && Claims(c, s) && w < |s.workers|
    requires !s.workers[w].pc.Exited? && !Waits(c, s, w)
    ensures CanMove(c, s, w)
  {
    assert WorkerAt(c, s, w);
    assert Can(c, s, w, NextStep(s.workers[w].pc));
  }

  /** In every reachable state of a run with splits, a worker that has not exited can take a step,
      or waits for a mutex whose holder can. */
  lemma NobodyIsStuck(c: Config, run: seq<State>, labels: seq<Label>, n: nat, w: nat)
    requires c.Valid() && c.splits && IsRun(c, run, labels) && n < |run|
    requires w < |run[n].workers| && !run[n].workers[w].pc.Exited?
    ensures Shape(c, run[n])
    ensures CanMove(c, run[n], w) || (run[n].mutex.Some? && CanMove(c, run[n], run[n].mutex.value))
  {
    RunClaims(c, run, labels, n);
    var s := run[n];
    if Waits(c, s, w) {
      MovesUnlessWaiting(c, s, s.mutex.value);
    } else {
      MovesUnlessWaiting(c, s, w);
    }
  }

  /** So a run that can be continued by no worker has ended for all of them, and no run can be
      continued by workers for ever. */
  lemma RunsEnd(c: Config, run: seq<State>, labels: seq<Label>)
    requires c.Valid() && c.splits && IsRun(c, run, labels)
    ensures Shape(c, run[|labels|])
    ensures (forall w: nat :: !CanMove(c, run[|labels|], w)) ==>
      forall w :: 0 <= w < |run[|labels|].workers| ==> run[|labels|].workers[w].pc.Exited?
    ensures WorkerSteps(labels) <= Measure(c, run[0])
  {
    RunsTerminate(c, run, labels);
    RunClaims(c, run, labels, |labels|);
    var s := run[|labels|];
    if forall w: nat :: !CanMove(c, s, w) {
      forall w | 0 <= w < |s.workers| ensures s.workers[w].pc.Exited? {
        if !s.workers[w].pc.Exited? { NobodyIsStuck(c, run, labels, |labels|, w); }
      }
    }
  }
}
