/** What the clients' calls come to, over whole runs. */
module SchedulerCalls {
  import opened Common
  import opened Queue
  import opened Scheduler
  import opened SchedulerSafety
  import opened SchedulerRuns
  import opened SchedulerOutcomes

  // ----- calls while the engine works -----

  /** The flags a call has set stay set as long as the worker works. */
  lemma {:induction false} FlagsStay(c: Config, ss: seq<State>, acts: seq<Action>, n: nat, m: nat, i: nat, id: nat)
    requires c.Valid() && IsRun(c, ss, acts) && Init(ss[0]) && n <= m < |ss|
    requires forall x :: n <= x <= m ==> WorkingAt(ss[x], i, id)
    ensures Lookup(ss[n].queue, id).Some? && Lookup(ss[m].queue, id).Some?
    ensures Lookup(ss[n].queue, id).value.cancel ==> Lookup(ss[m].queue, id).value.cancel
    ensures Lookup(ss[n].queue, id).value.pause ==> Lookup(ss[m].queue, id).value.pause
  {
    if n == m {
      RunSafe(c, ss, acts, n);
      assert WorkingAt(ss[n], i, id) && WorkerOk(c, ss[n], i);
    } else {
      FlagsStay(c, ss, acts, n, m - 1, i, id);
      RunSafe(c, ss, acts, m - 1);
      assert StepAt(c, ss, acts, m - 1) && WorkingAt(ss[m - 1], i, id) && WorkingAt(ss[m], i, id);
      RunSafe(c, ss, acts, m);
      assert WorkerOk(c, ss[m], i);
      FlagsStep(c, ss[m - 1], acts[m - 1], i, id);
    }
  }

  lemma FlagsStep(c: Config, s: State, a: Action, i: nat, id: nat)
    requires c.Valid() && Inv(c, s) && Can(c, s, a) && WorkingAt(s, i, id) && Lookup(s.queue, id).Some?
    requires Lookup(Do(c, s, a).queue, id).Some?
    ensures Lookup(s.queue, id).value.cancel ==> Lookup(Do(c, s, a).queue, id).value.cancel
    ensures Lookup(s.queue, id).value.pause ==> Lookup(Do(c, s, a).queue, id).value.pause
  {
    LookupBound(s, id);
    EntryAfter(c, s, a, id);
    assert EntryOk(c, s, id) && Owned(s, id);
    if a.Settle? { assert WorkerOk(c, s, a.i); }
  }

  /** A call on a download whose engine works sets its flag. */
  lemma CallSetsFlag(c: Config, s: State, a: Action, i: nat, id: nat)
    requires c.Valid() && Inv(c, s) && WorkingAt(s, i, id) && a in {Cancel(id), Remove(id), Pause(id)}
    ensures var e := Lookup(Do(c, s, a).queue, id);
      e.Some? && (if a == Pause(id) then e.value.pause else e.value.cancel)
  {
    assert EntryOk(c, s, id) && Owned(s, id) && WorkerOk(c, s, i);
    LookupBound(s, id);
    EntryAfter(c, s, a, id);
  }

  /** Between a call and a later look at the flag, the worker working throughout. */
  lemma CallIsSeen(c: Config, ss: seq<State>, acts: seq<Action>, n: nat, r: nat, i: nat, id: nat)
    requires c.Valid() && IsRun(c, ss, acts) && Init(ss[0]) && n < r < |ss|
    requires forall x :: n <= x <= r ==> WorkingAt(ss[x], i, id)
    requires acts[n] in {Cancel(id), Remove(id), Pause(id)}
    ensures var e := Lookup(ss[r].queue, id); e.Some? && (if acts[n] == Pause(id) then e.value.pause else e.value.cancel)
  {
    RunSafe(c, ss, acts, n);
    assert StepAt(c, ss, acts, n) && WorkingAt(ss[n], i, id);
    CallSetsFlag(c, ss[n], acts[n], i, id);
    FlagsStay(c, ss, acts, n + 1, r, i, id);
  }

  /** A cancel or a remove between the start and the worker's look at the cancel flag is seen, so what is written
      is DONE or CANCELED. */
  lemma CancelIsSeen(
    c: Config, ss: seq<State>, acts: seq<Action>, w: nat, i: nat, id: nat, rc: int, canceled: bool, paused: bool,
    k: Course, n: nat)
    requires c.Valid() && IsRun(c, ss, acts) && Init(ss[0]) && Follows(c, ss, acts, w, i, id, rc, canceled, paused, k)
    requires k.spawn < n < k.cancelRead && acts[n] in {Cancel(id), Remove(id)}
    ensures canceled
  {
    assert WorkingAt(ss[k.cancelRead], i, id);
    CallIsSeen(c, ss, acts, n, k.cancelRead, i, id);
  }

  /** A pause between the start and the worker's look at the pause flag is seen. */
  lemma PauseIsSeen(
    c: Config, ss: seq<State>, acts: seq<Action>, w: nat, i: nat, id: nat, rc: int, canceled: bool, paused: bool,
    k: Course, n: nat)
    requires c.Valid() && IsRun(c, ss, acts) && Init(ss[0]) && Follows(c, ss, acts, w, i, id, rc, canceled, paused, k)
    requires k.spawn < n < k.pauseRead && acts[n] == Pause(id)
    ensures paused
  {
    assert WorkingAt(ss[k.pauseRead], i, id);
    CallIsSeen(c, ss, acts, n, k.pauseRead, i, id);
  }

  // ----- calls on a listed download, whatever it does -----

  /** After a cancel the engine starts at most once more without a resume, and never if the download was not
      active. */
  lemma CancelCallAllowsOneStart(c: Config, ss: seq<State>, acts: seq<Action>, k: nat, m: nat, id: nat)
    requires c.Valid() && IsRun(c, ss, acts) && Init(ss[0]) && k < m < |ss|
    requires acts[k] in {Cancel(id), Remove(id)} && Lookup(ss[k].queue, id).Some?
    requires forall x :: k < x < m ==> acts[x] != Resume(id)
    ensures Starts(ss, acts, k + 1, m, id) <= if IsActive(ss[k], id) then 1 else 0
  {
    RunSafe(c, ss, acts, k);
    assert StepAt(c, ss, acts, k) && EntryOk(c, ss[k], id);
    LookupBound(ss[k], id);
    EntryAfter(c, ss[k], acts[k], id);
    if IsActive(ss[k], id) {
      CancelAllowsOneStart(c, ss, acts, k + 1, m, id);
    } else {
      BuriedNeverStarts(c, ss, acts, k + 1, m, id);
    }
  }

  lemma {:induction false} BuriedNeverStarts(c: Config, ss: seq<State>, acts: seq<Action>, k: nat, m: nat, id: nat)
    requires c.Valid() && IsRun(c, ss, acts) && Init(ss[0]) && k <= m < |ss| && Buried(ss[k], id)
    ensures Starts(ss, acts, k, m, id) == 0
  {
    if k < m {
      BuriedNeverStarts(c, ss, acts, k, m - 1, id);
      CanceledIsAbsorbing(c, ss, acts, k, m - 1, id);
      RunSafe(c, ss, acts, m - 1);
      assert StepAt(c, ss, acts, m - 1) && EntryOk(c, ss[m - 1], id);
    }
  }

  /** A cancel of a download that is not active makes it CANCELED at once, its retry fields clear. */
  lemma IdleCancel(c: Config, s: State, id: nat)
    requires c.Valid() && Inv(c, s) && Lookup(s.queue, id).Some? && !IsActive(s, id)
    ensures HasStatus(Do(c, s, Cancel(id)), id, Canceled) && Cleared(Do(c, s, Cancel(id)), id)
  {
    LookupBound(s, id);
    EntryAfter(c, s, Cancel(id), id);
  }

  /** A paused download stays so, or is canceled or unlinked, until it is resumed: no start comes between. */
  predicate Parked(s: State, id: nat) {
    id < s.nextId && (Lookup(s.queue, id).Some? ==> Lookup(s.queue, id).value.status in {Paused, Canceled})
  }

  lemma {:induction false} PauseHolds(c: Config, ss: seq<State>, acts: seq<Action>, k: nat, m: nat, id: nat)
    requires c.Valid() && IsRun(c, ss, acts) && Init(ss[0]) && k < m < |ss|
    requires acts[k] == Pause(id) && HasStatus(ss[k], id, Queued)
    requires forall x :: k < x < m ==> acts[x] != Resume(id)
    ensures Parked(ss[m], id) && Starts(ss, acts, k + 1, m, id) == 0
  {
    RunSafe(c, ss, acts, m - 1);
    assert StepAt(c, ss, acts, m - 1) && EntryOk(c, ss[m - 1], id);
    if k == m - 1 {
      LookupBound(ss[k], id);
      EntryAfter(c, ss[k], acts[k], id);
    } else {
      PauseHolds(c, ss, acts, k, m - 1, id);
      ParkedStep(c, ss[m - 1], acts[m - 1], id);
    }
  }

  lemma ParkedStep(c: Config, s: State, a: Action, id: nat)
    requires c.Valid() && Inv(c, s) && Can(c, s, a) && Parked(s, id) && a != Resume(id)
    ensures Parked(Do(c, s, a), id)
  {
    EntryAfter(c, s, a, id);
    assert EntryOk(c, s, id);
    if a.WriteStatus? {
      assert WorkingAt(s, a.i, s.workers[a.i].id);
    } else if a.Pick? {
      LookupAt(s.queue, a.j);
    }
  }

  /** A resume puts a paused or failed download back in the queue, due at once, with no flag set and all its retries
      before it; any other it leaves as it is. */
  lemma ResumeRequeues(c: Config, s: State, id: nat)
    requires c.Valid() && Inv(c, s) && Lookup(s.queue, id).Some?
    ensures var d, e := Lookup(s.queue, id).value, Lookup(Do(c, s, Resume(id)).queue, id);
      e.Some? && if d.status in {Paused, Error}
        then e.value.status == Queued && e.value.nextRetryAt == 0 && e.value.retryCount == 0
             && !e.value.cancel && !e.value.pause && e.value.priority == d.priority
        else e.value == d
  {
    LookupBound(s, id);
    EntryAfter(c, s, Resume(id), id);
  }

  // ----- the choice of the next download -----

  /** Due: queued, with no backoff on its clock or one that has passed. */
  predicate Due(d: Download, now: int) { d.status == Queued && d.nextRetryAt <= now }

  /** While the main thread is idle and the limit leaves room, some download can be picked as soon as one is due,
      and whatever is picked is due and of the highest priority among those that are. */
  lemma PickWhenDue(c: Config, s: State)
    requires c.Valid() && Inv(c, s) && s.main == Idle && Count(s.queue, Active) < c.limit
    ensures (exists j :: 0 <= j < |s.queue| && Due(s.queue[j], s.now)) <==> (exists j: nat :: Can(c, s, Pick(j)))
    ensures forall j: nat :: Can(c, s, Pick(j)) ==>
      && j < |s.queue| && Due(s.queue[j], s.now)
      && forall d :: d in s.queue && Due(d, s.now) ==> d.priority <= s.queue[j].priority
  {
    forall d | d in s.queue ensures Eligible(d, s.now) <==> Due(d, s.now) { }
    if exists j :: 0 <= j < |s.queue| && Due(s.queue[j], s.now) {
      var j := FirstHighest(s.queue, s.now, |s.queue|);
      assert Can(c, s, Pick(j));
    }
  }

  lemma {:induction false} FirstHighest(q: seq<Download>, now: int, n: nat) returns (j: nat)
    requires n <= |q| && exists k :: 0 <= k < n && Eligible(q[k], now)
    ensures j < n && Eligible(q[j], now)
    ensures forall k :: 0 <= k < n && Eligible(q[k], now) ==>
      q[k].priority <= q[j].priority && (k < j ==> q[k].priority < q[j].priority)
  {
    if exists k :: 0 <= k < n - 1 && Eligible(q[k], now) {
      j := FirstHighest(q, now, n - 1);
      if Eligible(q[n - 1], now) && q[n - 1].priority > q[j].priority { j := n - 1; }
    } else {
      j := n - 1;
    }
  }
}
