/** What every step of the scheduler keeps. */
module SchedulerSafety {
  import opened Common
  import opened Queue
  import opened Scheduler

  // ----- the invariant -----

  /** The backoff of the entry's last failure is on its clock, or has passed. */
  predicate Waiting(c: Config, d: Download, now: int)
    requires c.Valid()
  {
    && d.runs == d.retryCount <= c.maxAttempts
    && (d.retryCount > 0 ==>
          || (d.nextRetryAt > 0 && d.nextRetryAt == d.failedAt + Backoff(c, d.retryCount))
          || now >= d.failedAt + Backoff(c, d.retryCount))
  }

  predicate MayStart(c: Config, d: Download, now: int)
    requires c.Valid()
  {
    && d.runs == d.retryCount <= c.maxAttempts
    && (d.retryCount > 0 ==> now >= d.failedAt + Backoff(c, d.retryCount))
  }

  /** An entry is active exactly while it is picked or one worker works on it. */
  ghost predicate EntryOk(c: Config, s: State, id: nat)
    requires c.Valid()
  {
    match Lookup(s.queue, id)
    case None => s.main != Picked(id) && !Owned(s, id)
    case Some(d) =>
      && d.runs <= c.maxAttempts + 1
      && (d.status == Active <==> s.main == Picked(id) || Owned(s, id))
      && !(s.main == Picked(id) && Owned(s, id))
      && (d.status == Queued ==> Waiting(c, d, s.now))
      && (s.main == Picked(id) ==> MayStart(c, d, s.now))
  }

  /** The retry fields of an entry whose worker is in phase `p`. */
  predicate PhaseOk(c: Config, d: Download, p: Phase, now: int)
    requires c.Valid()
  {
    if p.Settled? then p.target != Active && (p.target == Queued ==> Waiting(c, d, now))
    else d.runs == d.retryCount + 1 && d.retryCount <= c.maxAttempts
  }

  ghost predicate WorkerOk(c: Config, s: State, i: nat)
    requires c.Valid()
  {
    i < |s.workers| && s.workers[i].Busy? && IsWorking(s.workers[i].phase) ==>
      && Lookup(s.queue, s.workers[i].id).Some?
      && PhaseOk(c, Lookup(s.queue, s.workers[i].id).value, s.workers[i].phase, s.now)
  }

  ghost predicate OneWorkerEach(s: State) {
    forall i: nat, j: nat, id: nat :: WorkingAt(s, i, id) && WorkingAt(s, j, id) ==> i == j
  }

  ghost predicate FreeBelow(s: State, n: nat) {
    forall i: nat :: i < n && i < |s.workers| ==> s.workers[i].Free?
  }

  ghost predicate MainOk(s: State) {
    && |s.workers| == SLOTS && s.now > 0 && IdsBelow(s.queue, s.nextId)
    && (s.main.Joining? ==> FreeBelow(s, s.main.i))
    && (s.main.Halted? ==> FreeBelow(s, SLOTS))
  }

  ghost predicate Inv(c: Config, s: State)
    requires c.Valid()
  {
    && MainOk(s)
    && OneWorkerEach(s)
    && (forall id: nat :: EntryOk(c, s, id))
    && (forall i: nat :: WorkerOk(c, s, i))
    && Count(s.queue, Active) <= c.limit
  }

  // ----- frames -----

  lemma FrameEntry(c: Config, s: State, t: State, id: nat)
    requires c.Valid() && EntryOk(c, s, id)
    requires Lookup(t.queue, id) == Lookup(s.queue, id) && t.now >= s.now
    requires t.main == Picked(id) <==> s.main == Picked(id)
    requires forall i: nat :: WorkingAt(t, i, id) <==> WorkingAt(s, i, id)
    ensures EntryOk(c, t, id)
  {
    assert Owned(t, id) <==> Owned(s, id);
  }

  /** Steps that leave the list and the workers' phases alone. */
  lemma QuietSafe(c: Config, s: State, t: State)
    requires c.Valid() && Inv(c, s) && MainOk(t)
    requires t.queue == s.queue && t.now >= s.now
    requires forall id: nat :: t.main == Picked(id) <==> s.main == Picked(id)
    requires forall i: nat :: i < SLOTS ==>
      || t.workers[i] == s.workers[i]
      || (!Works(s.workers[i]) && !Works(t.workers[i]))
    ensures Inv(c, t)
  {
    forall i: nat, id: nat ensures WorkingAt(t, i, id) <==> WorkingAt(s, i, id) {}
    forall id: nat ensures EntryOk(c, t, id) { FrameEntry(c, s, t, id); }
    forall i: nat ensures WorkerOk(c, t, i) { assert WorkerOk(c, s, i); }
  }

  predicate Works(w: Worker) { w.Busy? && IsWorking(w.phase) }

  // ----- steps on one entry -----

  /** A client call rewrites one entry without activating or deactivating it. */
  lemma TouchSafe(c: Config, s: State, d: Download)
    requires c.Valid() && Inv(c, s) && Lookup(s.queue, d.id).Some?
    requires var e := Lookup(s.queue, d.id).value;
      && (e.status == Active <==> d.status == Active)
      && (e.status == Active ==> d == e.(cancel := d.cancel, pause := d.pause))
      && (d.status == Queued ==> Waiting(c, d, s.now))
      && d.runs <= c.maxAttempts + 1
    ensures Inv(c, SetEntry(s, d))
  {
    var t := SetEntry(s, d);
    IdsBelowUpdate(s.queue, d, s.nextId);
    CountUpdate(s.queue, d, Active);
    forall id: nat ensures Lookup(t.queue, id) == if id == d.id then Some(d) else Lookup(s.queue, id) {
      LookupUpdate(s.queue, d, id);
    }
    forall i: nat, id: nat ensures WorkingAt(t, i, id) <==> WorkingAt(s, i, id) {}
    forall id: nat ensures EntryOk(c, t, id) {
      if id == d.id {
        assert EntryOk(c, s, id) && (Owned(t, id) <==> Owned(s, id));
      } else {
        FrameEntry(c, s, t, id);
      }
    }
    forall i: nat ensures WorkerOk(c, t, i) {
      assert WorkerOk(c, s, i);
      if i < SLOTS && Works(s.workers[i]) { assert WorkingAt(s, i, s.workers[i].id) && EntryOk(c, s, s.workers[i].id); }
    }
  }

  /** A worker moves on, perhaps rewriting its entry, before it writes the status. */
  lemma WorkSafe(c: Config, s: State, i: nat, p: Phase, d: Download)
    requires c.Valid() && Inv(c, s) && InPhase(s, i) && IsWorking(s.workers[i].phase) && IsWorking(p)
    requires d.id == s.workers[i].id && d.status == Active && d.runs == Entry(s, i).runs
    requires PhaseOk(c, d, p, s.now)
    ensures Inv(c, SetEntry(SetPhase(s, i, p), d))
  {
    var t := SetEntry(SetPhase(s, i, p), d);
    assert WorkingAt(s, i, d.id) && EntryOk(c, s, d.id);
    IdsBelowUpdate(s.queue, d, s.nextId);
    CountUpdate(s.queue, d, Active);
    forall id: nat ensures Lookup(t.queue, id) == if id == d.id then Some(d) else Lookup(s.queue, id) {
      LookupUpdate(s.queue, d, id);
    }
    forall k: nat, id: nat ensures WorkingAt(t, k, id) <==> WorkingAt(s, k, id) {}
    forall id: nat ensures EntryOk(c, t, id) {
      if id == d.id {
        assert Owned(t, id) by { assert WorkingAt(t, i, id); }
      } else {
        FrameEntry(c, s, t, id);
      }
    }
    forall k: nat ensures WorkerOk(c, t, k) {
      assert WorkerOk(c, s, k);
      if k != i && k < SLOTS && Works(s.workers[k]) {
        assert WorkingAt(s, k, s.workers[k].id);
      }
    }
  }

  /** The single status write of a worker. */
  lemma WriteSafe(c: Config, s: State, i: nat)
    requires c.Valid() && Inv(c, s) && Can(c, s, WriteStatus(i))
    ensures Inv(c, Do(c, s, WriteStatus(i)))
  {
    var t := Do(c, s, WriteStatus(i));
    var me := s.workers[i].id;
    assert WorkingAt(s, i, me) && EntryOk(c, s, me) && WorkerOk(c, s, i);
    var d := Lookup(s.queue, me).value.(status := s.workers[i].phase.target);
    IdsBelowUpdate(s.queue, d, s.nextId);
    CountUpdate(s.queue, d, Active);
    forall id: nat ensures Lookup(t.queue, id) == if id == me then Some(d) else Lookup(s.queue, id) {
      LookupUpdate(s.queue, d, id);
    }
    forall k: nat, id: nat ensures WorkingAt(t, k, id) <==> WorkingAt(s, k, id) && k != i {}
    forall id: nat ensures EntryOk(c, t, id) {
      if id == me {
        assert !Owned(t, id);
      } else {
        FrameEntry(c, s, t, id);
      }
    }
    forall k: nat ensures WorkerOk(c, t, k) {
      assert WorkerOk(c, s, k);
      if k != i && k < SLOTS && Works(s.workers[k]) { assert WorkingAt(s, k, s.workers[k].id); }
    }
  }

  lemma AddSafe(c: Config, s: State, d: Download)
    requires c.Valid() && Inv(c, s) && Can(c, s, Add(d))
    ensures Inv(c, Do(c, s, Add(d)))
  {
    var t := Do(c, s, Add(d));
    var e := d.(id := s.nextId);
    LookupBelow(s.queue, e.id, s.nextId);
    forall id: nat ensures Lookup(t.queue, id) == if id == e.id then Some(e) else Lookup(s.queue, id) {
      LookupCons(e, s.queue, id);
    }
    assert t.queue[1..] == s.queue;
    assert IdsBelow(t.queue, t.nextId) by {
      forall i, j | 0 <= i < j < |t.queue| ensures t.queue[i].id != t.queue[j].id {
        assert t.queue[j] == s.queue[j - 1] && s.queue[j - 1] in s.queue;
        if i > 0 { assert t.queue[i] == s.queue[i - 1]; }
      }
    }
    forall i: nat, id: nat ensures WorkingAt(t, i, id) <==> WorkingAt(s, i, id) {}
    forall id: nat ensures EntryOk(c, t, id) {
      if id == e.id {
        assert EntryOk(c, s, id) && (Owned(t, id) <==> Owned(s, id));
      } else {
        FrameEntry(c, s, t, id);
      }
    }
    forall i: nat ensures WorkerOk(c, t, i) {
      assert WorkerOk(c, s, i);
      if i < SLOTS && Works(s.workers[i]) { assert WorkingAt(s, i, s.workers[i].id); }
    }
  }

  /** Unlinking an entry that is not active. */
  lemma UnlinkSafe(c: Config, s: State, id: nat)
    requires c.Valid() && Inv(c, s)
    requires Lookup(s.queue, id).Some? && Lookup(s.queue, id).value.status != Active
    ensures Inv(c, s.(queue := Queue.Remove(s.queue, id)))
  {
    var t := s.(queue := Queue.Remove(s.queue, id));
    RemoveKeepsRest(s.queue, id);
    CountRemove(s.queue, id, Active);
    forall x: nat ensures Lookup(t.queue, x) == if x == id then None else Lookup(s.queue, x) {
      LookupRemove(s.queue, id, x);
    }
    forall i: nat, x: nat ensures WorkingAt(t, i, x) <==> WorkingAt(s, i, x) {}
    forall x: nat ensures EntryOk(c, t, x) {
      if x == id {
        assert EntryOk(c, s, x) && (Owned(t, x) <==> Owned(s, x));
      } else {
        FrameEntry(c, s, t, x);
      }
    }
    forall i: nat ensures WorkerOk(c, t, i) {
      assert WorkerOk(c, s, i);
      if i < SLOTS && Works(s.workers[i]) {
        assert WorkingAt(s, i, s.workers[i].id) && EntryOk(c, s, s.workers[i].id);
      }
    }
  }

  // ----- steps of the main thread -----

  lemma PickSafe(c: Config, s: State, j: nat)
    requires c.Valid() && Inv(c, s) && Can(c, s, Pick(j))
    ensures Inv(c, Do(c, s, Pick(j)))
  {
    var t := Do(c, s, Pick(j));
    var d := s.queue[j].(status := Active, nextRetryAt := 0);
    LookupAt(s.queue, j);
    IdsBelowUpdate(s.queue, d, s.nextId);
    CountUpdate(s.queue, d, Active);
    assert EntryOk(c, s, d.id);
    forall id: nat ensures Lookup(t.queue, id) == if id == d.id then Some(d) else Lookup(s.queue, id) {
      LookupUpdate(s.queue, d, id);
    }
    forall i: nat, id: nat ensures WorkingAt(t, i, id) <==> WorkingAt(s, i, id) {}
    forall id: nat ensures EntryOk(c, t, id) {
      if id == d.id {
        assert Owned(t, id) <==> Owned(s, id);
      } else {
        FrameEntry(c, s, t, id);
      }
    }
    forall i: nat ensures WorkerOk(c, t, i) {
      assert WorkerOk(c, s, i);
      if i < SLOTS && Works(s.workers[i]) { assert WorkingAt(s, i, s.workers[i].id); }
    }
  }

  lemma SpawnSafe(c: Config, s: State, w: nat)
    requires c.Valid() && Inv(c, s) && Can(c, s, Spawn(w))
    ensures Inv(c, Do(c, s, Spawn(w)))
  {
    var t := Do(c, s, Spawn(w));
    var me := s.main.id;
    assert EntryOk(c, s, me);
    var d := Lookup(s.queue, me).value.(runs := Lookup(s.queue, me).value.runs + 1);
    IdsBelowUpdate(s.queue, d, s.nextId);
    CountUpdate(s.queue, d, Active);
    forall id: nat ensures Lookup(t.queue, id) == if id == me then Some(d) else Lookup(s.queue, id) {
      LookupUpdate(s.queue, d, id);
    }
    forall i: nat, id: nat ensures WorkingAt(t, i, id) <==> WorkingAt(s, i, id) || (i == w && id == me) {}
    forall id: nat ensures EntryOk(c, t, id) {
      if id == me {
        assert Owned(t, id) by { assert WorkingAt(t, w, id); }
      } else {
        FrameEntry(c, s, t, id);
      }
    }
    forall i: nat ensures WorkerOk(c, t, i) { SpawnWorker(c, s, w, i); }
  }

  lemma SpawnWorker(c: Config, s: State, w: nat, i: nat)
    requires c.Valid() && Inv(c, s) && Can(c, s, Spawn(w))
    ensures WorkerOk(c, Do(c, s, Spawn(w)), i)
  {
    var me := s.main.id;
    assert EntryOk(c, s, me) && WorkerOk(c, s, i);
    var d := Lookup(s.queue, me).value.(runs := Lookup(s.queue, me).value.runs + 1);
    LookupUpdate(s.queue, d, me);
    if i < SLOTS && Works(s.workers[i]) {
      assert WorkingAt(s, i, s.workers[i].id);
      LookupUpdate(s.queue, d, s.workers[i].id);
    }
  }

  lemma RollbackSafe(c: Config, s: State)
    requires c.Valid() && Inv(c, s) && Can(c, s, SpawnFails)
    ensures Inv(c, Do(c, s, SpawnFails))
  {
    var t := Do(c, s, SpawnFails);
    var me := s.main.id;
    assert EntryOk(c, s, me);
    var d := Lookup(s.queue, me).value.(status := Queued);
    IdsBelowUpdate(s.queue, d, s.nextId);
    CountUpdate(s.queue, d, Active);
    forall id: nat ensures Lookup(t.queue, id) == if id == me then Some(d) else Lookup(s.queue, id) {
      LookupUpdate(s.queue, d, id);
    }
    forall i: nat, id: nat ensures WorkingAt(t, i, id) <==> WorkingAt(s, i, id) {}
    forall id: nat ensures EntryOk(c, t, id) {
      if id == me {
        assert Owned(t, id) <==> Owned(s, id);
      } else {
        FrameEntry(c, s, t, id);
      }
    }
    forall i: nat ensures WorkerOk(c, t, i) {
      assert WorkerOk(c, s, i);
      if i < SLOTS && Works(s.workers[i]) { assert WorkingAt(s, i, s.workers[i].id); }
    }
  }

  // ----- every step -----

  lemma ClientSafe(c: Config, s: State, a: Action)
    requires c.Valid() && Inv(c, s) && (a.Cancel? || a.Pause? || a.Resume? || a.Remove?)
    ensures Inv(c, Do(c, s, a))
  {
    var id := a.id;
    if Lookup(s.queue, id).Some? {
      var d := Lookup(s.queue, id).value;
      assert EntryOk(c, s, id);
      match a
      case Cancel(_) =>
        TouchSafe(c, s, if d.status == Active then d.(cancel := true)
                        else d.(status := Canceled, retryCount := 0, nextRetryAt := 0));
      case Pause(_) => PauseSafe(c, s, id);
      case Resume(_) => if d.status in {Paused, Error} { TouchSafe(c, s, Requeued(d)); }
      case Remove(_) => if d.status == Active { TouchSafe(c, s, d.(cancel := true)); } else { UnlinkSafe(c, s, id); }
    }
  }

  lemma PauseSafe(c: Config, s: State, id: nat)
    requires c.Valid() && Inv(c, s)
    ensures Inv(c, s.(queue := PauseSpec(s.queue, id)))
  {
    if Lookup(s.queue, id).Some? {
      var d := Lookup(s.queue, id).value;
      assert EntryOk(c, s, id);
      if d.status == Active { TouchSafe(c, s, d.(pause := true)); }
      if d.status == Queued { TouchSafe(c, s, d.(status := Paused)); }
    }
  }

  lemma ShutdownSafe(c: Config, s: State, a: Action)
    requires c.Valid() && Inv(c, s) && Can(c, s, a) && (a.Shutdown? || a.PauseNext? || a.JoinNext?)
    ensures Inv(c, Do(c, s, a))
  {
    var t := Do(c, s, a);
    if a.PauseNext? && s.main.i < SLOTS && s.workers[s.main.i].Busy? {
      var u := s.(queue := PauseSpec(s.queue, s.workers[s.main.i].id));
      PauseSafe(c, s, s.workers[s.main.i].id);
      QuietSafe(c, u, t);
    } else {
      QuietSafe(c, s, t);
    }
  }

  lemma WorkerSafe(c: Config, s: State, a: Action)
    requires c.Valid() && Inv(c, s) && Can(c, s, a)
    requires a.Return? || a.ReadCancel? || a.ReadPause? || a.Settle?
    ensures Inv(c, Do(c, s, a))
  {
    var i := a.i;
    assert WorkingAt(s, i, s.workers[i].id);
    assert WorkerOk(c, s, i) && EntryOk(c, s, s.workers[i].id);
    var d, p := Entry(s, i), s.workers[i].phase;
    SameEntry(s.queue, d.id);
    match a
    case Return(_, rc) => WorkSafe(c, s, i, Returned(rc), d);
    case ReadCancel(_) => WorkSafe(c, s, i, CancelRead(p.rc, d.cancel), d);
    case ReadPause(_) => WorkSafe(c, s, i, Decided(p.rc, p.canceled, d.pause), d);
    case Settle(_) =>
      var (e, target) := Outcome(c, d, p, s.now);
      WorkSafe(c, s, i, Settled(target), e);
  }

  lemma {:induction false} SameEntry(q: seq<Download>, id: nat)
    requires Lookup(q, id).Some?
    ensures Update(q, Lookup(q, id).value) == q
  {
    if q[0].id != id { SameEntry(q[1..], id); }
  }

  /** Every step keeps the invariant. */
  lemma StepSafe(c: Config, s: State, a: Action)
    requires c.Valid() && Inv(c, s) && Can(c, s, a)
    ensures Inv(c, Do(c, s, a))
  {
    match a
    case Add(d) => AddSafe(c, s, d);
    case Cancel(_) | Pause(_) | Resume(_) | Remove(_) => ClientSafe(c, s, a);
    case Pick(j) => PickSafe(c, s, j);
    case Spawn(i) => SpawnSafe(c, s, i);
    case SpawnFails => RollbackSafe(c, s);
    case Shutdown | PauseNext | JoinNext => ShutdownSafe(c, s, a);
    case Return(_, _) | ReadCancel(_) | ReadPause(_) | Settle(_) => WorkerSafe(c, s, a);
    case WriteStatus(i) => WriteSafe(c, s, i);
    case Reap(_) | Wait(_) | Finish(_) => QuietSafe(c, s, Do(c, s, a));
  }

  lemma InitSafe(c: Config, s: State)
    requires c.Valid() && Init(s)
    ensures Inv(c, s)
  {
    forall id: nat ensures EntryOk(c, s, id) {
      assert !Owned(s, id);
      if Lookup(s.queue, id).Some? {
        LookupIn(s.queue, id);
        var j :| 0 <= j < |s.queue| && s.queue[j].id == id;
        LookupAt(s.queue, j);
        assert s.queue[j] in s.queue;
      }
    }
    CountNone(s.queue, Active);
  }

  lemma {:induction false} CountNone(q: seq<Download>, x: Status)
    requires forall d :: d in q ==> d.status != x
    ensures Count(q, x) == 0
  {
    if q != [] {
      assert q[0] in q;
      CountNone(q[1..], x);
    }
  }

  lemma {:induction false} RunSafe(c: Config, ss: seq<State>, acts: seq<Action>, k: nat)
    requires c.Valid() && IsRun(c, ss, acts) && Init(ss[0]) && k < |ss|
    ensures Inv(c, ss[k])
  {
    if k == 0 {
      InitSafe(c, ss[0]);
    } else {
      RunSafe(c, ss, acts, k - 1);
      assert StepAt(c, ss, acts, k - 1);
      StepSafe(c, ss[k - 1], acts[k - 1]);
    }
  }
}
