/** What the scheduler guarantees over whole runs. */
module SchedulerRuns {
  import opened Common
  import opened Queue
  import opened Scheduler
  import opened SchedulerSafety

  // ----- one owner, bounded, and none left at the end -----

  /** In every run a download is active exactly while the main thread has just picked it or one
      worker works on it, never both, never two; a working worker's entry is still listed; and the
      limit holds. */
  lemma ActiveExactlyWhileHeld(c: Config, ss: seq<State>, acts: seq<Action>, k: nat)
    requires c.Valid() && IsRun(c, ss, acts) && Init(ss[0]) && k < |ss|
    ensures forall id: nat :: IsActive(ss[k], id) <==> ss[k].main == Picked(id) || Owned(ss[k], id)
    ensures forall id: nat :: ss[k].main == Picked(id) ==> !Owned(ss[k], id)
    ensures OneWorkerEach(ss[k])
    ensures Count(ss[k].queue, Active) <= c.limit && |ss[k].workers| == 64
  {
    RunSafe(c, ss, acts, k);
    forall id: nat
      ensures IsActive(ss[k], id) <==> ss[k].main == Picked(id) || Owned(ss[k], id)
      ensures ss[k].main == Picked(id) ==> !Owned(ss[k], id)
    {
      assert EntryOk(c, ss[k], id);
    }
  }

  predicate IsActive(s: State, id: nat) {
    Lookup(s.queue, id).Some? && Lookup(s.queue, id).value.status == Active
  }

  /** Once shutdown has joined the workers, no download is active. */
  lemma ShutdownLeavesNoneActive(c: Config, ss: seq<State>, acts: seq<Action>, k: nat)
    requires c.Valid() && IsRun(c, ss, acts) && Init(ss[0]) && k < |ss| && ss[k].main.Halted?
    ensures forall d :: d in ss[k].queue ==> d.status != Active
  {
    RunSafe(c, ss, acts, k);
    var s := ss[k];
    forall d | d in s.queue ensures d.status != Active {
      var j :| 0 <= j < |s.queue| && s.queue[j] == d;
      LookupAt(s.queue, j);
      assert EntryOk(c, s, d.id);
      assert !Owned(s, d.id);
    }
  }

  // ----- cancel -----

  /** Canceled, or unlinked: either way no longer startable. */
  predicate Buried(s: State, id: nat) {
    id < s.nextId && (Lookup(s.queue, id).None? || Lookup(s.queue, id).value.status == Canceled)
  }

  /** How a step changes the entry `id`. */
  lemma EntryAfter(c: Config, s: State, a: Action, id: nat)
    requires c.Valid() && Inv(c, s) && Can(c, s, a) && id < s.nextId
    ensures Do(c, s, a).nextId >= s.nextId
    ensures Lookup(Do(c, s, a).queue, id) == EntryThen(c, s, a, id)
  {
    if a.Add? || a.Cancel? || a.Pause? || a.Resume? || a.Remove? {
      EntryAfterCall(c, s, a, id);
    } else if a.Settle? || a.WriteStatus? {
      LookupAnyUpdate(s.queue, s.workers[a.i].id, id);
    } else if a.Pick? || a.Spawn? || a.SpawnFails? || a.PauseNext? {
      EntryAfterMain(c, s, a, id);
    }
  }

  lemma EntryAfterCall(c: Config, s: State, a: Action, id: nat)
    requires c.Valid() && Inv(c, s) && Can(c, s, a) && id < s.nextId
    requires a.Add? || a.Cancel? || a.Pause? || a.Resume? || a.Remove?
    ensures Lookup(Do(c, s, a).queue, id) == EntryThen(c, s, a, id)
  {
    match a
    case Add(d) => LookupCons(d.(id := s.nextId), s.queue, id);
    case Cancel(x) => EntryAfterCancel(c, s, x, id);
    case Pause(x) => EntryAfterPause(s, x, id);
    case Resume(x) => LookupAnyUpdate(s.queue, x, id);
    case Remove(x) => EntryAfterRemove(c, s, x, id);
  }

  lemma EntryAfterCancel(c: Config, s: State, x: nat, id: nat)
    requires c.Valid()
    ensures Lookup(CancelCall(s.queue, x), id) == EntryThen(c, s, Cancel(x), id)
  {
    LookupAnyUpdate(s.queue, x, id);
  }

  lemma EntryAfterPause(s: State, x: nat, id: nat)
    ensures Lookup(PauseSpec(s.queue, x), id)
         == if x == id && Lookup(s.queue, id).Some? then Some(Stopped(Lookup(s.queue, id).value)) else Lookup(s.queue, id)
  {
    LookupAnyUpdate(s.queue, x, id);
  }

  lemma EntryAfterRemove(c: Config, s: State, x: nat, id: nat)
    requires c.Valid() && Inv(c, s)
    ensures Lookup(RemoveSpec(s.queue, x), id) == EntryThen(c, s, Remove(x), id)
  {
    LookupAnyUpdate(s.queue, x, id);
    LookupRemove(s.queue, x, id);
  }

  lemma EntryAfterMain(c: Config, s: State, a: Action, id: nat)
    requires c.Valid() && Inv(c, s) && Can(c, s, a) && id < s.nextId
    requires a.Pick? || a.Spawn? || a.SpawnFails? || a.PauseNext?
    ensures Lookup(Do(c, s, a).queue, id) == EntryThen(c, s, a, id)
  {
    if a.Pick? {
      EntryAfterPick(c, s, a.j, id);
    } else if a.PauseNext? {
      if s.main.i < SLOTS && s.workers[s.main.i].Busy? { EntryAfterPause(s, s.workers[s.main.i].id, id); }
    } else {
      LookupAnyUpdate(s.queue, s.main.id, id);
    }
  }

  lemma EntryAfterPick(c: Config, s: State, j: nat, id: nat)
    requires c.Valid() && Inv(c, s) && j < |s.queue|
    ensures var d := s.queue[j].(status := Active, nextRetryAt := 0);
      Lookup(Update(s.queue, d), id) == if d.id == id then Some(d) else Lookup(s.queue, id)
    ensures Lookup(s.queue, s.queue[j].id) == Some(s.queue[j])
  {
    LookupAt(s.queue, j);
    LookupUpdate(s.queue, s.queue[j].(status := Active, nextRetryAt := 0), id);
  }

  lemma LookupAnyUpdate(q: seq<Download>, x: nat, id: nat)
    ensures forall d: Download :: d.id == x ==>
              Lookup(Update(q, d), id) == if id == x && Lookup(q, id).Some? then Some(d) else Lookup(q, id)
  {
    forall d: Download | d.id == x
      ensures Lookup(Update(q, d), id) == if id == x && Lookup(q, id).Some? then Some(d) else Lookup(q, id)
    {
      LookupUpdate(q, d, id);
    }
  }

  function EntryThen(c: Config, s: State, a: Action, id: nat): Option<Download>
    requires c.Valid() && Can(c, s, a)
  {
    match Lookup(s.queue, id)
    case None => None
    case Some(d) =>
      match a
      case Cancel(x) =>
        if x != id then Some(d)
        else if d.status == Active then Some(d.(cancel := true))
        else Some(d.(status := Canceled, retryCount := 0, nextRetryAt := 0))
      case Pause(x) => if x == id then Some(Stopped(d)) else Some(d)
      case Resume(x) => if x == id && d.status in {Paused, Error} then Some(Requeued(d)) else Some(d)
      case Remove(x) =>
        if x != id then Some(d) else if d.status == Active then Some(d.(cancel := true)) else None
      case Pick(j) => if s.queue[j].id == id then Some(d.(status := Active, nextRetryAt := 0)) else Some(d)
      case Spawn(_) => if s.main.id == id then Some(d.(runs := d.runs + 1)) else Some(d)
      case SpawnFails => if s.main.id == id then Some(d.(status := Queued)) else Some(d)
      case PauseNext =>
        if s.main.i < |s.workers| && s.workers[s.main.i].Busy? && s.workers[s.main.i].id == id
        then Some(Stopped(d)) else Some(d)
      case Settle(i) =>
        if s.workers[i].id == id then Some(Outcome(c, d, s.workers[i].phase, s.now).0) else Some(d)
      case WriteStatus(i) =>
        if s.workers[i].id == id then Some(d.(status := s.workers[i].phase.target)) else Some(d)
      case _ => Some(d)
  }

  function Stopped(d: Download): Download {
    if d.status == Active then d.(pause := true) else if d.status == Queued then d.(status := Paused) else d
  }

  /** CANCELED is absorbing. */
  lemma {:induction false} CanceledIsAbsorbing(c: Config, ss: seq<State>, acts: seq<Action>, k: nat, m: nat, id: nat)
    requires c.Valid() && IsRun(c, ss, acts) && Init(ss[0]) && k <= m < |ss|
    requires Buried(ss[k], id)
    ensures Buried(ss[m], id)
  {
    if k < m {
      CanceledIsAbsorbing(c, ss, acts, k, m - 1, id);
      RunSafe(c, ss, acts, m - 1);
      assert StepAt(c, ss, acts, m - 1);
      BuriedStays(c, ss[m - 1], acts[m - 1], id);
    }
  }

  lemma BuriedStays(c: Config, s: State, a: Action, id: nat)
    requires c.Valid() && Inv(c, s) && Can(c, s, a) && Buried(s, id)
    ensures Buried(Do(c, s, a), id)
  {
    EntryAfter(c, s, a, id);
    assert EntryOk(c, s, id);
    if a.WriteStatus? { assert WorkingAt(s, a.i, s.workers[a.i].id); }
    if a.Pick? { LookupAt(s.queue, a.j); }
  }

  /** A worker past its look at the cancel flag that may still put the download back in the queue. */
  predicate Requeues(p: Phase) {
    match p
    case CancelRead(rc, canceled) => rc != 0 && !canceled
    case Decided(rc, canceled, paused) => rc != 0 && !canceled && !paused
    case Settled(target) => target == Queued
    case _ => false
  }

  predicate RequeuerAt(s: State, i: nat, id: nat) { WorkingAt(s, i, id) && Requeues(s.workers[i].phase) }

  /** The engine could start once more for `id` with no resume by the user. */
  ghost predicate Startable(s: State, id: nat) {
    Lookup(s.queue, id).Some? &&
    (Lookup(s.queue, id).value.status == Queued || s.main == Picked(id) || exists i: nat :: RequeuerAt(s, i, id))
  }

  /** The cancel flag is set, or the entry is gone. */
  predicate Doomed(s: State, id: nat) {
    id < s.nextId && (Lookup(s.queue, id).Some? ==> Lookup(s.queue, id).value.cancel)
  }

  /** The engine starts for `id` at step `k`. */
  predicate StartsAt(ss: seq<State>, acts: seq<Action>, k: nat, id: nat)
    requires k < |acts| && |ss| == |acts| + 1
  {
    acts[k].Spawn? && ss[k].main == Picked(id)
  }

  function Starts(ss: seq<State>, acts: seq<Action>, k: nat, m: nat, id: nat): nat
    requires k <= m <= |acts| && |ss| == |acts| + 1
    decreases m
  {
    if k == m then 0 else Starts(ss, acts, k, m - 1, id) + (if StartsAt(ss, acts, m - 1, id) then 1 else 0)
  }

  /** One step with the flag set uses up the start that may remain, and grants none. */
  lemma DoomedStep(c: Config, s: State, a: Action, id: nat)
    requires c.Valid() && Inv(c, s) && Can(c, s, a) && Doomed(s, id) && a != Resume(id)
    ensures Doomed(Do(c, s, a), id)
    ensures Startable(Do(c, s, a), id) ==> Startable(s, id)
    ensures a.Spawn? && s.main == Picked(id) ==> Startable(s, id) && !Startable(Do(c, s, a), id)
  {
    var t := Do(c, s, a);
    EntryAfter(c, s, a, id);
    assert EntryOk(c, s, id);
    if a.WriteStatus? { assert WorkingAt(s, a.i, s.workers[a.i].id); }
    if a.Pick? { LookupAt(s.queue, a.j); }
    forall i: nat | RequeuerAt(t, i, id)
      ensures RequeuerAt(s, i, id)
      ensures !(a.Spawn? && s.main == Picked(id))
    {
      RequeuerBefore(c, s, a, id, i);
      assert Owned(s, id);
    }
    if a.WriteStatus? && s.workers[a.i].id == id && s.workers[a.i].phase.target == Queued {
      assert RequeuerAt(s, a.i, id);
    }
  }

  lemma RequeuerBefore(c: Config, s: State, a: Action, id: nat, i: nat)
    requires c.Valid() && Inv(c, s) && Can(c, s, a) && Doomed(s, id)
    requires RequeuerAt(Do(c, s, a), i, id)
    ensures RequeuerAt(s, i, id)
  {
  }

  /** Once the cancel flag is set and the user does not resume, the engine starts at most once more:
      never if it was running or had just returned, and after a start the download is never again
      queued. */
  lemma {:induction false} CancelAllowsOneStart(
      c: Config, ss: seq<State>, acts: seq<Action>, k: nat, m: nat, id: nat)
    requires c.Valid() && IsRun(c, ss, acts) && Init(ss[0]) && k <= m < |ss|
    requires Doomed(ss[k], id)
    requires forall x :: k <= x < m ==> acts[x] != Resume(id)
    ensures Doomed(ss[m], id)
    ensures Starts(ss, acts, k, m, id) <= (if Startable(ss[k], id) then 1 else 0)
    ensures Startable(ss[m], id) ==> Startable(ss[k], id) && Starts(ss, acts, k, m, id) == 0
  {
    if k < m {
      CancelAllowsOneStart(c, ss, acts, k, m - 1, id);
      RunSafe(c, ss, acts, m - 1);
      assert StepAt(c, ss, acts, m - 1);
      DoomedStep(c, ss[m - 1], acts[m - 1], id);
    }
  }

  /** Canceling while the engine runs, or before its worker has looked at the flag: no start follows,
      and the download never becomes queued. */
  lemma CancelWhileRunningIsFinal(
      c: Config, ss: seq<State>, acts: seq<Action>, k: nat, m: nat, id: nat, i: nat)
    requires c.Valid() && IsRun(c, ss, acts) && Init(ss[0]) && k <= m < |ss|
    requires Doomed(ss[k], id) && WorkingAt(ss[k], i, id)
    requires ss[k].workers[i].phase.Running? || ss[k].workers[i].phase.Returned?
    requires forall x :: k <= x < m ==> acts[x] != Resume(id)
    ensures Starts(ss, acts, k, m, id) == 0
    ensures Lookup(ss[m].queue, id).Some? ==> Lookup(ss[m].queue, id).value.status != Queued
  {
    RunSafe(c, ss, acts, k);
    assert EntryOk(c, ss[k], id);
    assert Owned(ss[k], id);
    forall j: nat ensures !RequeuerAt(ss[k], j, id) {
      if WorkingAt(ss[k], j, id) { assert j == i; }
    }
    CancelAllowsOneStart(c, ss, acts, k, m, id);
  }

  // ----- retries -----

  predicate Retryable(rc: int) { rc != 0 && rc != -2 && rc != -3 && rc != -4 }

  /** Nothing but retryable failures happens to `id` at step `k`. */
  predicate Undisturbed(ss: seq<State>, acts: seq<Action>, k: nat, id: nat)
    requires k < |acts| && |ss| == |acts| + 1
  {
    match acts[k]
    case Cancel(x) => x != id
    case Pause(x) => x != id
    case Resume(x) => x != id
    case Remove(x) => x != id
    case Return(i, rc) => i < |ss[k].workers| && ss[k].workers[i] == Busy(id, Running) ==> Retryable(rc)
    case PauseNext =>
      ss[k].main.Pausing? && ss[k].main.i < |ss[k].workers| && ss[k].workers[ss[k].main.i].Busy? ==>
        ss[k].workers[ss[k].main.i].id != id
    case _ => true
  }

  /** What a worker on `id` may have seen. */
  predicate FailingPhase(c: Config, d: Download, p: Phase) {
    match p
    case Running => true
    case Returned(rc) => Retryable(rc)
    case CancelRead(rc, canceled) => Retryable(rc) && !canceled
    case Decided(rc, canceled, paused) => Retryable(rc) && !canceled && !paused
    case Settled(target) => target == Queued || (target == Error && d.runs == c.maxAttempts + 1)
    case _ => true
  }

  ghost predicate Failing(c: Config, s: State, id: nat) {
    && id < s.nextId && Lookup(s.queue, id).Some?
    && var d := Lookup(s.queue, id).value;
    && !d.cancel && !d.pause && d.status in {Queued, Active, Error}
    && (d.status == Error ==> d.runs == c.maxAttempts + 1)
    && forall i: nat :: WorkingAt(s, i, id) ==> FailingPhase(c, d, s.workers[i].phase)
  }

  lemma FailingStep(c: Config, ss: seq<State>, acts: seq<Action>, k: nat, id: nat)
    requires c.Valid() && IsRun(c, ss, acts) && k < |acts| && Inv(c, ss[k])
    requires Failing(c, ss[k], id) && Undisturbed(ss, acts, k, id)
    ensures Failing(c, ss[k + 1], id)
    ensures Lookup(ss[k + 1].queue, id).value.runs
         == Lookup(ss[k].queue, id).value.runs + if StartsAt(ss, acts, k, id) then 1 else 0
  {
    assert StepAt(c, ss, acts, k);
    var s, a, t := ss[k], acts[k], ss[k + 1];
    FailingEntry(c, ss, acts, k, id);
    var d' := Lookup(t.queue, id).value;
    forall i: nat | WorkingAt(t, i, id) ensures FailingPhase(c, d', t.workers[i].phase) {
      if (a.Return? || a.ReadCancel? || a.ReadPause? || a.Settle?) && a.i == i {
        FailingMover(c, ss, acts, k, id, i);
      } else {
        FailingRest(c, s, a, id, i);
      }
    }
  }

  /** The entry itself. */
  lemma FailingEntry(c: Config, ss: seq<State>, acts: seq<Action>, k: nat, id: nat)
    requires c.Valid() && IsRun(c, ss, acts) && k < |acts| && Inv(c, ss[k])
    requires Failing(c, ss[k], id) && Undisturbed(ss, acts, k, id)
    ensures Can(c, ss[k], acts[k]) && ss[k + 1] == Do(c, ss[k], acts[k]) && ss[k + 1].nextId >= ss[k].nextId
    ensures var e := Lookup(ss[k + 1].queue, id);
      && e.Some? && e == EntryThen(c, ss[k], acts[k], id)
      && !e.value.cancel && !e.value.pause && e.value.status in {Queued, Active, Error}
      && (e.value.status == Error ==> e.value.runs == c.maxAttempts + 1)
      && e.value.runs == Lookup(ss[k].queue, id).value.runs + if StartsAt(ss, acts, k, id) then 1 else 0
  {
    assert StepAt(c, ss, acts, k);
    var s, a := ss[k], acts[k];
    EntryAfter(c, s, a, id);
    assert EntryOk(c, s, id);
    if a.WriteStatus? {
      assert WorkingAt(s, a.i, s.workers[a.i].id);
    } else if a.Pick? {
      LookupAt(s.queue, a.j);
    } else if a.Settle? {
      assert WorkerOk(c, s, a.i) && WorkingAt(s, a.i, s.workers[a.i].id);
    }
  }

  /** The worker that takes the step. */
  lemma FailingMover(c: Config, ss: seq<State>, acts: seq<Action>, k: nat, id: nat, i: nat)
    requires c.Valid() && k < |acts| && |ss| == |acts| + 1 && StepAt(c, ss, acts, k) && Inv(c, ss[k])
    requires Failing(c, ss[k], id) && Undisturbed(ss, acts, k, id) && WorkingAt(ss[k], i, id)
    requires acts[k] == Settle(i) || acts[k] == ReadCancel(i) || acts[k] == ReadPause(i) || (acts[k].Return? && acts[k].i == i)
    requires Lookup(ss[k + 1].queue, id) == EntryThen(c, ss[k], acts[k], id) && EntryThen(c, ss[k], acts[k], id).Some?
    ensures FailingPhase(c, Lookup(ss[k + 1].queue, id).value, ss[k + 1].workers[i].phase)
  {
    var s := ss[k];
    assert FailingPhase(c, Lookup(s.queue, id).value, s.workers[i].phase);
    assert WorkerOk(c, s, i);
  }

  /** Every other worker. */
  lemma FailingRest(c: Config, s: State, a: Action, id: nat, i: nat)
    requires c.Valid() && Inv(c, s) && Can(c, s, a) && Failing(c, s, id)
    requires a.Return? || a.ReadCancel? || a.ReadPause? || a.Settle? ==> a.i != i
    requires WorkingAt(Do(c, s, a), i, id)
    requires EntryThen(c, s, a, id).Some? && EntryThen(c, s, a, id).value.runs == RunsThen(s, a, id)
    ensures FailingPhase(c, EntryThen(c, s, a, id).value, Do(c, s, a).workers[i].phase)
  {
    if a.Spawn? {
      assert EntryOk(c, s, id);
      if WorkingAt(s, i, id) { assert Owned(s, id); }
    } else {
      assert WorkingAt(s, i, id) && Do(c, s, a).workers[i] == s.workers[i];
    }
  }

  function RunsThen(s: State, a: Action, id: nat): nat
    requires Lookup(s.queue, id).Some?
  {
    Lookup(s.queue, id).value.runs + if a.Spawn? && s.main == Picked(id) then 1 else 0
  }

  /** With fixed settings and only retryable failures, a freshly queued download is started exactly
      `maxAttempts + 1` times before it reaches ERROR; while it is queued, the starts so far are its
      retry count, so `maxAttempts - retryCount` falls with each of them. */
  lemma {:induction false} RetriesExactly(
      c: Config, ss: seq<State>, acts: seq<Action>, k: nat, m: nat, id: nat)
    requires c.Valid() && IsRun(c, ss, acts) && Init(ss[0]) && k <= m < |ss|
    requires Lookup(ss[k].queue, id).Some?
    requires var d := Lookup(ss[k].queue, id).value; d.status == Queued && !d.cancel && !d.pause && d.runs == 0
    requires forall x :: k <= x < m ==> Undisturbed(ss, acts, x, id)
    ensures Failing(c, ss[m], id)
    ensures var d, n := Lookup(ss[m].queue, id).value, Starts(ss, acts, k, m, id);
      && n == d.runs <= c.maxAttempts + 1
      && (d.status == Error ==> n == c.maxAttempts + 1)
      && (d.status == Queued ==> n == d.retryCount <= c.maxAttempts)
  {
    RunSafe(c, ss, acts, m);
    assert EntryOk(c, ss[m], id);
    if k == m {
      LookupBound(ss[k], id);
      forall i: nat ensures !WorkingAt(ss[k], i, id) {
        if WorkingAt(ss[k], i, id) { assert Owned(ss[k], id); }
      }
    } else {
      RetriesExactly(c, ss, acts, k, m - 1, id);
      RunSafe(c, ss, acts, m - 1);
      FailingStep(c, ss, acts, m - 1, id);
    }
  }

  lemma LookupBound(s: State, id: nat)
    requires MainOk(s) && Lookup(s.queue, id).Some?
    ensures id < s.nextId
  {
    if id >= s.nextId { LookupBelow(s.queue, id, s.nextId); }
  }

  // ----- backoff -----

  /** After the failure at time `f` that made the count `r`, and before the next start. */
  ghost predicate BackingOff(s: State, id: nat, f: int, r: nat) {
    id < s.nextId && match Lookup(s.queue, id)
      case None => true
      case Some(d) =>
        || d.status == Canceled || d.status == Paused
        || (d.failedAt == f && d.retryCount == r &&
            (d.status == Queued || s.main == Picked(id) || exists i: nat :: WaitingAt(s, i, id)))
  }

  predicate WaitingAt(s: State, i: nat, id: nat) { WorkingAt(s, i, id) && s.workers[i].phase == Settled(Queued) }

  lemma BackingOffStep(c: Config, s: State, a: Action, id: nat, f: int, r: nat)
    requires c.Valid() && Inv(c, s) && Can(c, s, a) && BackingOff(s, id, f, r)
    requires a != Resume(id) && !(a.Spawn? && s.main == Picked(id))
    ensures BackingOff(Do(c, s, a), id, f, r)
  {
    EntryAfter(c, s, a, id);
    assert EntryOk(c, s, id);
    if a.WriteStatus? {
      assert WorkingAt(s, a.i, s.workers[a.i].id);
    } else if a.Pick? {
      LookupAt(s.queue, a.j);
    } else if a.Settle? {
      assert WorkingAt(s, a.i, s.workers[a.i].id);
    }
    if i: nat :| WaitingAt(s, i, id) {
      assert Owned(s, id);
      if a != WriteStatus(i) { WaitsOn(c, s, a, id, i); }
    }
  }

  /** A worker that is to queue the download again waits until it does. */
  lemma WaitsOn(c: Config, s: State, a: Action, id: nat, i: nat)
    requires c.Valid() && Inv(c, s) && Can(c, s, a) && WaitingAt(s, i, id) && a != WriteStatus(i)
    ensures WaitingAt(Do(c, s, a), i, id)
  {
  }

  lemma {:induction false} BackingOffUntil(
      c: Config, ss: seq<State>, acts: seq<Action>, k: nat, m: nat, id: nat, f: int, r: nat)
    requires c.Valid() && IsRun(c, ss, acts) && Init(ss[0]) && k <= m < |ss| && BackingOff(ss[k], id, f, r)
    requires forall x :: k <= x < m ==> acts[x] != Resume(id) && !StartsAt(ss, acts, x, id)
    ensures BackingOff(ss[m], id, f, r)
  {
    if k < m {
      BackingOffUntil(c, ss, acts, k, m - 1, id, f, r);
      RunSafe(c, ss, acts, m - 1);
      assert StepAt(c, ss, acts, m - 1);
      assert acts[m - 1] != Resume(id) && !StartsAt(ss, acts, m - 1, id);
      BackingOffStep(c, ss[m - 1], acts[m - 1], id, f, r);
    }
  }

  /** The start that follows a retryable failure comes no earlier than the backoff after it. */
  lemma NoEarlyRetry(c: Config, ss: seq<State>, acts: seq<Action>, k: nat, m: nat, id: nat, i: nat)
    requires c.Valid() && IsRun(c, ss, acts) && Init(ss[0]) && k < m < |acts|
    requires acts[k] == Settle(i) && WorkingAt(ss[k], i, id) && WaitingAt(ss[k + 1], i, id)
    requires StartsAt(ss, acts, m, id)
    requires forall x :: k < x < m ==> acts[x] != Resume(id) && !StartsAt(ss, acts, x, id)
    ensures Lookup(ss[k + 1].queue, id).Some? && Lookup(ss[k + 1].queue, id).value.retryCount >= 1
    ensures ss[m].now >= ss[k].now + Backoff(c, Lookup(ss[k + 1].queue, id).value.retryCount)
  {
    RunSafe(c, ss, acts, k);
    assert StepAt(c, ss, acts, k);
    assert EntryOk(c, ss[k], id) && WorkerOk(c, ss[k], i) && Owned(ss[k], id);
    LookupBound(ss[k], id);
    EntryAfter(c, ss[k], acts[k], id);
    var d := Lookup(ss[k + 1].queue, id).value;
    assert WaitingAt(ss[k + 1], i, id);
    BackingOffUntil(c, ss, acts, k + 1, m, id, ss[k].now, d.retryCount);
    RunSafe(c, ss, acts, m);
    assert StepAt(c, ss, acts, m);
    assert EntryOk(c, ss[m], id);
  }

  /** A value stored into 32 bits keeps its remainder and lies in their range. */
  lemma Wrap32Is(v: int)
    ensures -0x8000_0000 <= Wrap32(v) < 0x8000_0000 && (Wrap32(v) - v) % 0x1_0000_0000 == 0
  {
  }

  /** When the computed delay is the one the settings promise: the shifted base still fits a 32-bit
      int (and the shift was not capped), or its wrapped value is again replaced by the cap. */
  lemma BackoffExact(c: Config, attempt: nat)
    requires c.Valid() && attempt >= 1
    ensures var v := Shl(c.base, if attempt > 31 then 30 else attempt - 1);
      Backoff(c, attempt) == Ideal(c, attempt) <==>
      if v < 0x8000_0000 then attempt <= 31 || c.maxDelay <= v
      else Wrap32(v) < 0 || Wrap32(v) >= c.maxDelay
  {
    if attempt > 31 { ShlGrows(c.base, 30, attempt - 1); }
  }

  lemma {:induction false} ShlGrows(x: nat, a: nat, b: nat)
    requires a <= b
    ensures Shl(x, a) <= Shl(x, b)
    ensures a < b ==> 2 * Shl(x, a) <= Shl(x, b)
  {
    if a < b { ShlGrows(x, a, b - 1); }
  }

  lemma {:induction false} ShlMonotone(x: nat, y: nat, n: nat)
    requires x <= y
    ensures Shl(x, n) <= Shl(y, n)
  {
    if n > 0 { ShlMonotone(x, y, n - 1); }
  }

  /** A base under four seconds gives the promised delay at every attempt up to 31. */
  lemma SmallBaseIsExact(c: Config, attempt: nat)
    requires c.Valid() && 1 <= attempt <= 31 && c.base <= 3
    ensures Backoff(c, attempt) == Ideal(c, attempt)
  {
    BackoffExact(c, attempt);
    ShlMonotone(c.base, 3, attempt - 1);
    ShlGrows(3, attempt - 1, 30);
    assert Shl(3, 10) == 3072;
    assert Shl(3, 20) == 0x30_0000;
    assert Shl(3, 30) == 0xC000_0000;
  }

  /** With a base of four seconds the 31st retry does not wait at all. */
  lemma WrappedBackoffIsZero(c: Config)
    requires c.Valid() && c.base == 4
    ensures Backoff(c, 31) == 0 && Ideal(c, 31) == c.maxDelay
  {
    assert Shl(4, 10) == 4096;
    assert Shl(4, 20) == 0x40_0000;
    assert Shl(4, 30) == 0x1_0000_0000;
  }
}
