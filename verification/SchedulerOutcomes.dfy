/** Which final status a result of the engine leads to, over whole runs. */
module SchedulerOutcomes {
  import opened Common
  import opened Queue
  import opened Scheduler
  import opened SchedulerSafety
  import opened SchedulerRuns

  // ----- how a worker came to its phase -----

  /** What the target of a settled worker says about the result, the flags it read and the retries so far. */
  predicate TargetFits(c: Config, rc: int, canceled: bool, paused: bool, retries: nat, target: Status) {
    && (target == Done <==> rc == 0)
    && (target == Canceled <==> rc != 0 && canceled)
    && (target == Paused <==> rc != 0 && !canceled && paused)
    && (target == Queued <==> rc !in {0, -2, -3, -4} && !canceled && !paused && retries < c.maxAttempts)
    && (target == Error <==> rc != 0 && !canceled && !paused && (rc in {-2, -3, -4} || retries >= c.maxAttempts))
  }

  /** The step that puts a worker into a phase. */
  predicate Enters(c: Config, s: State, a: Action, i: nat, id: nat, p: Phase)
    requires i < |s.workers|
  {
    match p
    case Running => a == Spawn(i) && s.main == Picked(id)
    case Returned(rc) => a == Return(i, rc) && s.workers[i] == Busy(id, Running)
    case CancelRead(rc, canceled) =>
      a == ReadCancel(i) && s.workers[i] == Busy(id, Returned(rc)) && InPhase(s, i) && canceled == Entry(s, i).cancel
    case Decided(rc, canceled, paused) =>
      && a == ReadPause(i) && s.workers[i] == Busy(id, CancelRead(rc, canceled))
      && InPhase(s, i) && paused == Entry(s, i).pause
    case Settled(target) =>
      && a == Settle(i) && s.workers[i].Busy? && s.workers[i].id == id && s.workers[i].phase.Decided? && InPhase(s, i)
      && var q := s.workers[i].phase; TargetFits(c, q.rc, q.canceled, q.paused, Entry(s, i).retryCount, target)
    case Finishing => a == WriteStatus(i) && s.workers[i].Busy? && s.workers[i].id == id && s.workers[i].phase.Settled?
    case Finished => a == Finish(i) && s.workers[i] == Busy(id, Finishing)
  }

  lemma StepEnters(c: Config, s: State, a: Action, i: nat, id: nat, p: Phase)
    requires c.Valid() && Can(c, s, a) && i < |s.workers|
    requires i < |Do(c, s, a).workers| && Do(c, s, a).workers[i] == Busy(id, p) && s.workers[i] != Busy(id, p)
    ensures Enters(c, s, a, i, id, p)
  {
  }

  predicate SameWorker(s: State, t: State, i: nat) {
    i < |s.workers| && i < |t.workers| && s.workers[i] == t.workers[i]
  }

  predicate SettledAt(s: State, i: nat) { i < |s.workers| && s.workers[i].Busy? && s.workers[i].phase.Settled? }

  /** Worker `i` has been in its phase since step `x`. */
  ghost predicate Since(ss: seq<State>, i: nat, x: nat, n: nat) {
    x < n < |ss| && forall k :: x < k <= n ==> SameWorker(ss[k], ss[n], i)
  }

  lemma {:induction false} Entered(c: Config, ss: seq<State>, acts: seq<Action>, n: nat, i: nat)
      returns (x: nat)
    requires c.Valid() && IsRun(c, ss, acts) && Init(ss[0]) && n < |ss|
    requires i < |ss[n].workers| && ss[n].workers[i].Busy?
    ensures Since(ss, i, x, n) && x < |acts| && i < |ss[x].workers|
    ensures Enters(c, ss[x], acts[x], i, ss[n].workers[i].id, ss[n].workers[i].phase)
  {
    assert n > 0;
    RunSafe(c, ss, acts, n - 1);
    assert StepAt(c, ss, acts, n - 1);
    x := n - 1;
    if ss[n - 1].workers[i] == ss[n].workers[i] {
      x := Entered(c, ss, acts, n - 1, i);
    } else {
      StepEnters(c, ss[n - 1], acts[n - 1], i, ss[n].workers[i].id, ss[n].workers[i].phase);
    }
  }

  /** The steps of one engine start on worker `i`, from its spawn to the write of the status. */
  datatype Course = Course(spawn: nat, ret: nat, cancelRead: nat, pauseRead: nat, settle: nat)

  ghost predicate Follows(
    c: Config, ss: seq<State>, acts: seq<Action>, w: nat, i: nat, id: nat, rc: int, canceled: bool, paused: bool, k: Course)
  {
    && k.spawn < k.ret < k.cancelRead < k.pauseRead < k.settle < w < |acts| < |ss|
    && (forall n :: k.spawn < n <= w ==> WorkingAt(ss[n], i, id))
    && acts[k.spawn] == Spawn(i) && ss[k.spawn].main == Picked(id)
    && acts[k.ret] == Return(i, rc)
    && acts[k.cancelRead] == ReadCancel(i) && InPhase(ss[k.cancelRead], i) && canceled == Entry(ss[k.cancelRead], i).cancel
    && acts[k.pauseRead] == ReadPause(i) && InPhase(ss[k.pauseRead], i) && paused == Entry(ss[k.pauseRead], i).pause
    && acts[k.settle] == Settle(i) && InPhase(ss[k.settle], i)
    && ss[k.settle].workers[i] == Busy(id, Decided(rc, canceled, paused))
    && (forall n :: k.settle < n <= w ==> SettledAt(ss[n], i))
    && acts[w] == WriteStatus(i)
  }

  /** Whenever a worker writes a status, it had an engine start that returned, it read the cancel flag and then the
      pause flag, and the status is the one the result and what it read lead to: DONE exactly when the engine
      returned 0. */
  lemma StatusWritten(c: Config, ss: seq<State>, acts: seq<Action>, w: nat, i: nat)
      returns (id: nat, rc: int, canceled: bool, paused: bool, k: Course)
    requires c.Valid() && IsRun(c, ss, acts) && Init(ss[0]) && w < |acts| && acts[w] == WriteStatus(i)
    ensures Follows(c, ss, acts, w, i, id, rc, canceled, paused, k)
    ensures Lookup(ss[w + 1].queue, id).Some?
    ensures TargetFits(c, rc, canceled, paused, Entry(ss[k.settle], i).retryCount, Lookup(ss[w + 1].queue, id).value.status)
  {
    assert StepAt(c, ss, acts, w);
    id := ss[w].workers[i].id;
    var settle := Entered(c, ss, acts, w, i);
    var pauseRead := Entered(c, ss, acts, settle, i);
    var cancelRead := Entered(c, ss, acts, pauseRead, i);
    var ret := Entered(c, ss, acts, cancelRead, i);
    var spawn := Entered(c, ss, acts, ret, i);
    k := Course(spawn, ret, cancelRead, pauseRead, settle);
    StillWorking(ss, i, id, spawn, ret);
    StillWorking(ss, i, id, ret, cancelRead);
    StillWorking(ss, i, id, cancelRead, pauseRead);
    StillWorking(ss, i, id, pauseRead, settle);
    StillWorking(ss, i, id, settle, w);
    var p := ss[settle].workers[i].phase;
    rc, canceled, paused := p.rc, p.canceled, p.paused;
    WrittenIs(c, ss, acts, w, i);
  }

  /** The write puts the target into the entry. */
  lemma WrittenIs(c: Config, ss: seq<State>, acts: seq<Action>, w: nat, i: nat)
    requires c.Valid() && IsRun(c, ss, acts) && Init(ss[0]) && w < |acts| && acts[w] == WriteStatus(i)
    ensures i < |ss[w].workers| && ss[w].workers[i].Busy? && ss[w].workers[i].phase.Settled?
    ensures var id := ss[w].workers[i].id;
      && Lookup(ss[w].queue, id).Some? && Lookup(ss[w + 1].queue, id).Some?
      && Lookup(ss[w + 1].queue, id).value == Lookup(ss[w].queue, id).value.(status := ss[w].workers[i].phase.target)
  {
    RunSafe(c, ss, acts, w);
    assert StepAt(c, ss, acts, w) && WorkerOk(c, ss[w], i);
    var id := ss[w].workers[i].id;
    LookupBound(ss[w], id);
    EntryAfter(c, ss[w], acts[w], id);
  }

  lemma StillWorking(ss: seq<State>, i: nat, id: nat, from: nat, to: nat)
    requires Since(ss, i, from, to) && WorkingAt(ss[to], i, id)
    ensures forall n :: from < n <= to ==> WorkingAt(ss[n], i, id)
    ensures SettledAt(ss[to], i) ==> forall n :: from < n <= to ==> SettledAt(ss[n], i)
  {
    forall n | from < n <= to ensures WorkingAt(ss[n], i, id) && (SettledAt(ss[to], i) ==> SettledAt(ss[n], i)) {
      assert SameWorker(ss[n], ss[to], i);
    }
  }

  // ----- DONE -----

  /** The write that made an entry DONE. */
  lemma DoneByWrite(c: Config, ss: seq<State>, acts: seq<Action>, w: nat, id: nat)
      returns (i: nat, canceled: bool, paused: bool, k: Course)
    requires c.Valid() && IsRun(c, ss, acts) && Init(ss[0]) && w < |acts|
    requires !HasStatus(ss[w], id, Done) && HasStatus(ss[w + 1], id, Done)
    ensures Follows(c, ss, acts, w, i, id, 0, canceled, paused, k)
  {
    RunSafe(c, ss, acts, w);
    assert StepAt(c, ss, acts, w);
    BecomesDone(c, ss[w], acts[w], id);
    i := acts[w].i;
    var id', rc;
    id', rc, canceled, paused, k := StatusWritten(c, ss, acts, w, i);
    assert WorkingAt(ss[w], i, id');
  }

  /** The step from which on the entry has been DONE. */
  lemma {:induction false} DoneSince(ss: seq<State>, m: nat, id: nat) returns (w: nat)
    requires m < |ss| && HasStatus(ss[m], id, Done) && !HasStatus(ss[0], id, Done)
    ensures w < m && !HasStatus(ss[w], id, Done) && forall n :: w < n <= m ==> HasStatus(ss[n], id, Done)
  {
    w := m - 1;
    if HasStatus(ss[m - 1], id, Done) { w := DoneSince(ss, m - 1, id); }
  }

  /** An entry that was not DONE from the start is DONE only if its last engine start returned 0. */
  lemma DoneMeansZero(c: Config, ss: seq<State>, acts: seq<Action>, m: nat, id: nat)
      returns (w: nat, i: nat, canceled: bool, paused: bool, k: Course)
    requires c.Valid() && IsRun(c, ss, acts) && Init(ss[0]) && m < |ss| && HasStatus(ss[m], id, Done)
    requires !HasStatus(ss[0], id, Done)
    ensures w < m && Follows(c, ss, acts, w, i, id, 0, canceled, paused, k)
    ensures forall x :: k.spawn < x < m ==> !StartsAt(ss, acts, x, id)
  {
    w := DoneSince(ss, m, id);
    i, canceled, paused, k := DoneByWrite(c, ss, acts, w, id);
    NoStartOnCourse(c, ss, acts, w, i, id, 0, canceled, paused, k);
    forall x | w < x < m ensures !StartsAt(ss, acts, x, id) { NoStartWhenDone(c, ss, acts, x, id); }
  }

  lemma CourseWorks(
    c: Config, ss: seq<State>, acts: seq<Action>, w: nat, i: nat, id: nat, rc: int, canceled: bool, paused: bool, k: Course)
    requires Follows(c, ss, acts, w, i, id, rc, canceled, paused, k)
    ensures k.spawn < k.settle < w < |acts| < |ss| && forall n :: k.spawn < n <= w ==> WorkingAt(ss[n], i, id)
    ensures forall n :: k.settle < n <= w ==> SettledAt(ss[n], i)
    ensures acts[k.settle] == Settle(i) && i < |ss[k.settle].workers|
    ensures ss[k.settle].workers[i] == Busy(id, Decided(rc, canceled, paused))
  {
  }

  lemma NoStartOnCourse(
    c: Config, ss: seq<State>, acts: seq<Action>, w: nat, i: nat, id: nat, rc: int, canceled: bool, paused: bool, k: Course)
    requires c.Valid() && IsRun(c, ss, acts) && Init(ss[0]) && Follows(c, ss, acts, w, i, id, rc, canceled, paused, k)
    ensures w < |acts| && forall x :: k.spawn < x <= w ==> !StartsAt(ss, acts, x, id)
  {
    CourseWorks(c, ss, acts, w, i, id, rc, canceled, paused, k);
    NoStartWhileWorking(c, ss, acts, k.spawn, w, i, id);
  }

  lemma NoStartWhenDone(c: Config, ss: seq<State>, acts: seq<Action>, n: nat, id: nat)
    requires c.Valid() && IsRun(c, ss, acts) && Init(ss[0]) && n < |acts| && HasStatus(ss[n], id, Done)
    ensures !StartsAt(ss, acts, n, id)
  {
    RunSafe(c, ss, acts, n);
    assert EntryOk(c, ss[n], id);
  }

  lemma NoStartWhileWorking(c: Config, ss: seq<State>, acts: seq<Action>, from: nat, to: nat, i: nat, id: nat)
    requires c.Valid() && IsRun(c, ss, acts) && Init(ss[0]) && from < to < |acts|
    requires forall n :: from < n <= to ==> WorkingAt(ss[n], i, id)
    ensures forall x :: from < x <= to ==> !StartsAt(ss, acts, x, id)
  {
    forall x | from < x <= to ensures !StartsAt(ss, acts, x, id) {
      RunSafe(c, ss, acts, x);
      assert WorkingAt(ss[x], i, id) && EntryOk(c, ss[x], id) && Owned(ss[x], id);
    }
  }

  predicate HasStatus(s: State, id: nat, status: Status) {
    Lookup(s.queue, id).Some? && Lookup(s.queue, id).value.status == status
  }

  lemma BecomesDone(c: Config, s: State, a: Action, id: nat)
    requires c.Valid() && Inv(c, s) && Can(c, s, a) && !HasStatus(s, id, Done) && HasStatus(Do(c, s, a), id, Done)
    ensures a.WriteStatus? && a.i < |s.workers| && s.workers[a.i].Busy? && s.workers[a.i].id == id
  {
    if id >= s.nextId {
      LookupBelow(s.queue, id, s.nextId);
      if a.Add? { LookupCons(a.d.(id := s.nextId), s.queue, id); } else { NothingNew(c, s, a, id); }
    } else {
      EntryAfter(c, s, a, id);
    }
  }

  lemma NothingNew(c: Config, s: State, a: Action, id: nat)
    requires c.Valid() && Inv(c, s) && Can(c, s, a) && !a.Add? && Lookup(s.queue, id).None?
    ensures Lookup(Do(c, s, a).queue, id).None?
  {
    if a.Cancel? || a.Pause? || a.Resume? || a.Remove? {
      NothingNewByCall(c, s, a, id);
    } else if a.Pick? {
      LookupAnyUpdate(s.queue, s.queue[a.j].id, id);
    } else if a.Spawn? || a.SpawnFails? {
      LookupAnyUpdate(s.queue, s.main.id, id);
    } else if a.Settle? || a.WriteStatus? {
      LookupAnyUpdate(s.queue, s.workers[a.i].id, id);
    } else if a.PauseNext? && s.main.i < |s.workers| && s.workers[s.main.i].Busy? {
      LookupAnyUpdate(s.queue, s.workers[s.main.i].id, id);
    }
  }

  lemma NothingNewByCall(c: Config, s: State, a: Action, id: nat)
    requires c.Valid() && Inv(c, s) && Lookup(s.queue, id).None? && (a.Cancel? || a.Pause? || a.Resume? || a.Remove?)
    ensures Lookup(Do(c, s, a).queue, id).None?
  {
    LookupAnyUpdate(s.queue, a.id, id);
    if a.Remove? { LookupRemove(s.queue, a.id, id); }
  }

  // ----- ERROR -----

  predicate Cleared(s: State, id: nat) {
    Lookup(s.queue, id).Some? && Lookup(s.queue, id).value.retryCount == 0 && Lookup(s.queue, id).value.nextRetryAt == 0
  }

  /** Until it writes the status, nothing else touches the retry fields. */
  lemma {:induction false} StaysCleared(
      c: Config, ss: seq<State>, acts: seq<Action>, n: nat, w: nat, i: nat, id: nat)
    requires c.Valid() && IsRun(c, ss, acts) && Init(ss[0]) && n <= w < |ss| && Cleared(ss[n], id)
    requires forall x :: n <= x <= w ==> WorkingAt(ss[x], i, id) && SettledAt(ss[x], i)
    ensures Cleared(ss[w], id)
  {
    if n < w {
      StaysCleared(c, ss, acts, n, w - 1, i, id);
      RunSafe(c, ss, acts, w - 1);
      assert StepAt(c, ss, acts, w - 1) && EntryOk(c, ss[w - 1], id);
      assert WorkingAt(ss[w - 1], i, id) && Owned(ss[w - 1], id);
      LookupBound(ss[w - 1], id);
      ClearedStep(c, ss[w - 1], acts[w - 1], i, id);
    }
  }

  lemma ClearedStep(c: Config, s: State, a: Action, i: nat, id: nat)
    requires c.Valid() && Inv(c, s) && Can(c, s, a) && id < s.nextId && Cleared(s, id)
    requires WorkingAt(s, i, id) && s.workers[i].phase.Settled? && a != WriteStatus(i)
    ensures Cleared(Do(c, s, a), id)
  {
    EntryAfter(c, s, a, id);
    assert EntryOk(c, s, id) && Owned(s, id);
    if a.Pick? {
      LookupAt(s.queue, a.j);
    } else if a.Settle? {
      assert a.i != i;
      if s.workers[a.i].id == id { assert WorkingAt(s, a.i, id); }
    }
  }

  /** At rest: no start without a resume. */
  predicate AtRest(s: State, id: nat) {
    id < s.nextId && (Lookup(s.queue, id).Some? ==> Lookup(s.queue, id).value.status in {Error, Canceled})
  }

  lemma {:induction false} RestsUntilResumed(c: Config, ss: seq<State>, acts: seq<Action>, n: nat, m: nat, id: nat)
    requires c.Valid() && IsRun(c, ss, acts) && Init(ss[0]) && n <= m < |ss| && AtRest(ss[n], id)
    requires forall x :: n <= x < m ==> acts[x] != Resume(id)
    ensures AtRest(ss[m], id) && Starts(ss, acts, n, m, id) == 0
  {
    if n < m {
      RestsUntilResumed(c, ss, acts, n, m - 1, id);
      RunSafe(c, ss, acts, m - 1);
      assert StepAt(c, ss, acts, m - 1) && EntryOk(c, ss[m - 1], id);
      RestStep(c, ss[m - 1], acts[m - 1], id);
    }
  }

  lemma RestStep(c: Config, s: State, a: Action, id: nat)
    requires c.Valid() && Inv(c, s) && Can(c, s, a) && AtRest(s, id) && a != Resume(id)
    ensures AtRest(Do(c, s, a), id)
  {
    EntryAfter(c, s, a, id);
    assert EntryOk(c, s, id);
    if a.WriteStatus? {
      assert WorkingAt(s, a.i, s.workers[a.i].id);
    } else if a.Pick? {
      LookupAt(s.queue, a.j);
    }
  }

  /** Whatever final status is written, the retry fields are clear with it; only a pause keeps them, and a retry
      counts up. */
  lemma FinalClears(
    c: Config, ss: seq<State>, acts: seq<Action>, w: nat, i: nat, id: nat, rc: int, canceled: bool, paused: bool, k: Course)
    requires c.Valid() && IsRun(c, ss, acts) && Init(ss[0]) && Follows(c, ss, acts, w, i, id, rc, canceled, paused, k)
    requires HasStatus(ss[w + 1], id, Done) || HasStatus(ss[w + 1], id, Canceled) || HasStatus(ss[w + 1], id, Error)
    ensures Cleared(ss[w + 1], id)
  {
    CourseWorks(c, ss, acts, w, i, id, rc, canceled, paused, k);
    WrittenIs(c, ss, acts, w, i);
    assert WorkingAt(ss[w], i, id) && SettledAt(ss[w], i);
    SettledTarget(c, ss, acts, k.settle, w, i, id);
    RunSafe(c, ss, acts, k.settle);
    assert StepAt(c, ss, acts, k.settle);
    SettleLeaves(c, ss[k.settle], i, id);
    StaysCleared(c, ss, acts, k.settle + 1, w, i, id);
  }

  /** The target chosen is the target written. */
  lemma {:induction false} SettledTarget(
    c: Config, ss: seq<State>, acts: seq<Action>, n: nat, w: nat, i: nat, id: nat)
    requires c.Valid() && IsRun(c, ss, acts) && n < w < |ss|
    requires forall x :: n < x <= w ==> WorkingAt(ss[x], i, id) && SettledAt(ss[x], i)
    ensures SettledAt(ss[n + 1], i) && SettledAt(ss[w], i) && ss[w].workers[i].phase == ss[n + 1].workers[i].phase
  {
    assert SettledAt(ss[w], i);
    if n + 1 < w {
      SettledTarget(c, ss, acts, n, w - 1, i, id);
      assert StepAt(c, ss, acts, w - 1) && WorkingAt(ss[w - 1], i, id);
    }
  }

  /** What settling does to the retry fields, by the status to be written. */
  lemma SettleLeaves(c: Config, s: State, i: nat, id: nat)
    requires c.Valid() && Inv(c, s) && Can(c, s, Settle(i)) && s.workers[i].id == id
    ensures Lookup(s.queue, id).Some? && SettledAt(Do(c, s, Settle(i)), i)
    ensures var d, target := Lookup(s.queue, id).value, Do(c, s, Settle(i)).workers[i].phase.target;
      && (target in {Done, Canceled, Error} ==> Cleared(Do(c, s, Settle(i)), id))
      && (target == Paused ==> Lookup(Do(c, s, Settle(i)).queue, id) == Some(d))
      && (target == Queued ==>
            Lookup(Do(c, s, Settle(i)).queue, id) == Some(
              d.(retryCount := d.retryCount + 1, failedAt := s.now, nextRetryAt := s.now + Backoff(c, d.retryCount + 1))))
  {
    assert WorkerOk(c, s, i);
    LookupBound(s, id);
    EntryAfter(c, s, Settle(i), id);
  }

  /** A result of -2, -3 or -4, with neither flag read set, ends in ERROR with the retry fields cleared, and no
      start follows until the user resumes. */
  lemma FatalEndsInError(c: Config, ss: seq<State>, acts: seq<Action>, w: nat, i: nat, m: nat)
      returns (id: nat, rc: int, canceled: bool, paused: bool, k: Course)
    requires c.Valid() && IsRun(c, ss, acts) && Init(ss[0]) && w < m < |ss| && acts[w] == WriteStatus(i)
    ensures Follows(c, ss, acts, w, i, id, rc, canceled, paused, k)
    ensures rc in {-2, -3, -4} && !canceled && !paused ==>
      && HasStatus(ss[w + 1], id, Error) && Cleared(ss[w + 1], id)
      && ((forall x :: w < x < m ==> acts[x] != Resume(id)) ==> Starts(ss, acts, w + 1, m, id) == 0)
  {
    id, rc, canceled, paused, k := StatusWritten(c, ss, acts, w, i);
    if rc in {-2, -3, -4} && !canceled && !paused {
      FinalClears(c, ss, acts, w, i, id, rc, canceled, paused, k);
      assert WorkingAt(ss[w], i, id);
      RunSafe(c, ss, acts, w + 1);
      LookupBound(ss[w + 1], id);
      if forall x :: w < x < m ==> acts[x] != Resume(id) { RestsUntilResumed(c, ss, acts, w + 1, m, id); }
    }
  }
}
