/** The scheduler of src/core/scheduler.c as a step system: one main thread, up to 64 workers, and
    client calls that may come between any two steps. */
module Scheduler {
  import opened Common
  import opened Queue

  const SLOTS := 64

  // ----- backoff -----

  /** `x` doubled `n` times: an unbounded left shift. */
  function Shl(x: nat, n: nat): (r: nat)
    ensures r >= x
  {
    if n == 0 then x else 2 * Shl(x, n - 1)
  }

  /** A value stored into a 32-bit two's-complement int. */
  function Wrap32(v: int): int {
    (v + 0x8000_0000) % 0x1_0000_0000 - 0x8000_0000
  }

  datatype Config = Config(limit: nat, maxAttempts: nat, base: nat, maxDelay: nat) {
    /** The clamps of src/utils/config.c. */
    predicate Valid() { 1 <= limit && 1 <= base <= maxDelay < 0x8000_0000 }
  }

  /** `retry_backoff_seconds`. */
  function Backoff(c: Config, attempt: nat): (r: int)
    requires c.Valid() && attempt >= 1
    ensures 0 <= r <= c.maxDelay
  {
    var delay := Wrap32(Shl(c.base, if attempt - 1 > 30 then 30 else attempt - 1));
    if delay > c.maxDelay || delay < 0 then c.maxDelay else delay
  }

  /** What the settings promise: the base delay, doubled at each attempt, up to the cap. */
  function Ideal(c: Config, attempt: nat): nat
    requires attempt >= 1
  {
    var d := Shl(c.base, attempt - 1);
    if d > c.maxDelay then c.maxDelay else d
  }

  // ----- state -----

  /** Where a worker stands in `download_thread_fn`. */
  datatype Phase =
    | Running
    | Returned(rc: int)
    | CancelRead(rc: int, canceled: bool)
    | Decided(rc: int, canceled: bool, paused: bool)
    | Settled(target: Status)
    | Finishing
    | Finished

  datatype Worker = Free | Busy(id: nat, phase: Phase)

  /** Where the main thread stands. */
  datatype Main = Idle | Picked(id: nat) | Pausing(i: nat) | Joining(i: nat) | Halted

  datatype State = State(queue: seq<Download>, nextId: nat, workers: seq<Worker>, main: Main, now: int)

  datatype Action =
    | Add(d: Download) | Cancel(id: nat) | Pause(id: nat) | Resume(id: nat) | Remove(id: nat)
    | Reap(i: nat) | Pick(j: nat) | Spawn(i: nat) | SpawnFails
    | Shutdown | PauseNext | JoinNext | Wait(seconds: nat)
    | Return(i: nat, rc: int) | ReadCancel(i: nat) | ReadPause(i: nat)
    | Settle(i: nat) | WriteStatus(i: nat) | Finish(i: nat)

  /** From the start of the engine up to the write of the final status. */
  predicate IsWorking(p: Phase) { !p.Finishing? && !p.Finished? }

  predicate WorkingAt(s: State, i: nat, id: nat) {
    i < |s.workers| && s.workers[i].Busy? && s.workers[i].id == id && IsWorking(s.workers[i].phase)
  }

  ghost predicate Owned(s: State, id: nat) {
    exists i: nat :: WorkingAt(s, i, id)
  }

  // ----- steps -----

  predicate InPhase(s: State, i: nat) {
    i < |s.workers| && s.workers[i].Busy? && Lookup(s.queue, s.workers[i].id).Some?
  }

  function Entry(s: State, i: nat): Download
    requires InPhase(s, i)
  {
    Lookup(s.queue, s.workers[i].id).value
  }

  predicate Can(c: Config, s: State, a: Action) {
    match a
    case Add(d) =>
      d.status == Queued && !d.cancel && !d.pause && d.retryCount == 0 && d.nextRetryAt == 0 && d.runs == 0
    case Cancel(_) | Pause(_) | Resume(_) | Remove(_) | Wait(_) => true
    case Reap(i) => s.main.Idle? && i < |s.workers| && s.workers[i].Busy? && s.workers[i].phase.Finished?
    case Pick(j) => s.main.Idle? && Count(s.queue, Active) < c.limit && IsNext(s.queue, s.now, j)
    case Spawn(i) =>
      && s.main.Picked? && i < |s.workers| && s.workers[i].Free?
      && (forall k :: 0 <= k < i ==> s.workers[k].Busy?)
    case SpawnFails => s.main.Picked?
    case Shutdown => s.main.Idle?
    case PauseNext => s.main.Pausing?
    case JoinNext =>
      && s.main.Joining?
      && (s.main.i < |s.workers| && s.workers[s.main.i].Busy? ==> s.workers[s.main.i].phase.Finished?)
    case Return(i, _) => InPhase(s, i) && s.workers[i].phase.Running?
    case ReadCancel(i) => InPhase(s, i) && s.workers[i].phase.Returned?
    case ReadPause(i) => InPhase(s, i) && s.workers[i].phase.CancelRead?
    case Settle(i) => InPhase(s, i) && s.workers[i].phase.Decided?
    case WriteStatus(i) => i < |s.workers| && s.workers[i].Busy? && s.workers[i].phase.Settled?
    case Finish(i) => i < |s.workers| && s.workers[i].Busy? && s.workers[i].phase.Finishing?
  }

  /** A client's cancel: for an entry that is not active it also clears the resume state. */
  function CancelCall(q: seq<Download>, id: nat): seq<Download> {
    match Lookup(q, id)
    case None => q
    case Some(d) =>
      if d.status == Active then CancelSpec(q, id)
      else Update(q, d.(status := Canceled, retryCount := 0, nextRetryAt := 0))
  }

  /** How a worker leaves the retry fields, and the status it is about to write. */
  function Outcome(c: Config, d: Download, p: Phase, now: int): (Download, Status)
    requires c.Valid() && p.Decided?
  {
    var cleared := d.(retryCount := 0, nextRetryAt := 0);
    if p.rc == 0 then (cleared, Done)
    else if p.canceled then (cleared, Canceled)
    else if p.paused then (d, Paused)
    else if p.rc == -2 || p.rc == -3 || p.rc == -4 then (cleared, Error)
    else if d.retryCount < c.maxAttempts then
      (d.(retryCount := d.retryCount + 1, nextRetryAt := now + Backoff(c, d.retryCount + 1), failedAt := now), Queued)
    else (cleared, Error)
  }

  function SetPhase(s: State, i: nat, p: Phase): State
    requires i < |s.workers| && s.workers[i].Busy?
  {
    s.(workers := s.workers[i := Busy(s.workers[i].id, p)])
  }

  function SetEntry(s: State, d: Download): State {
    s.(queue := Update(s.queue, d))
  }

  function Do(c: Config, s: State, a: Action): State
    requires c.Valid() && Can(c, s, a)
  {
    match a
    case Add(d) => s.(queue := [d.(id := s.nextId)] + s.queue, nextId := s.nextId + 1)
    case Cancel(id) => s.(queue := CancelCall(s.queue, id))
    case Pause(id) => s.(queue := PauseSpec(s.queue, id))
    case Resume(id) => s.(queue := ResumeSpec(s.queue, id))
    case Remove(id) => s.(queue := RemoveSpec(s.queue, id))
    case Wait(seconds) => s.(now := s.now + seconds)
    case Reap(i) => s.(workers := s.workers[i := Free])
    case Pick(j) =>
      SetEntry(s, s.queue[j].(status := Active, nextRetryAt := 0)).(main := Picked(s.queue[j].id))
    case Spawn(i) =>
      var t := s.(workers := s.workers[i := Busy(s.main.id, Running)], main := Idle);
      (match Lookup(s.queue, s.main.id)
       case None => t
       case Some(d) => SetEntry(t, d.(runs := d.runs + 1)))
    case SpawnFails => s.(queue := UpdateStatusSpec(s.queue, s.main.id, Queued), main := Idle)
    case Shutdown => s.(main := Pausing(0))
    case PauseNext =>
      if s.main.i >= |s.workers| then s.(main := Joining(0))
      else if s.workers[s.main.i].Free? then s.(main := Pausing(s.main.i + 1))
      else s.(queue := PauseSpec(s.queue, s.workers[s.main.i].id), main := Pausing(s.main.i + 1))
    case JoinNext =>
      if s.main.i >= |s.workers| then s.(main := Halted)
      else s.(workers := s.workers[s.main.i := Free], main := Joining(s.main.i + 1))
    case Return(i, rc) => SetPhase(s, i, Returned(rc))
    case ReadCancel(i) => SetPhase(s, i, CancelRead(s.workers[i].phase.rc, Entry(s, i).cancel))
    case ReadPause(i) =>
      var p := s.workers[i].phase;
      SetPhase(s, i, Decided(p.rc, p.canceled, Entry(s, i).pause))
    case Settle(i) =>
      var (d, target) := Outcome(c, Entry(s, i), s.workers[i].phase, s.now);
      SetEntry(SetPhase(s, i, Settled(target)), d)
    case WriteStatus(i) =>
      SetPhase(s, i, Finishing).(
        queue := UpdateStatusSpec(s.queue, s.workers[i].id, s.workers[i].phase.target))
    case Finish(i) => SetPhase(s, i, Finished)
  }

  /** A daemon start: nothing active, no retry in progress, no worker. */
  ghost predicate Init(s: State) {
    && IdsBelow(s.queue, s.nextId) && s.now > 0
    && (forall d :: d in s.queue ==>
          d.status != Active && d.retryCount == 0 && d.nextRetryAt == 0 && d.runs == 0)
    && |s.workers| == SLOTS && (forall i :: 0 <= i < SLOTS ==> s.workers[i].Free?)
    && s.main == Idle
  }

  /** States joined by steps of the system. */
  ghost predicate IsRun(c: Config, ss: seq<State>, acts: seq<Action>)
    requires c.Valid()
  {
    && |ss| == |acts| + 1
    && forall k :: 0 <= k < |acts| ==> StepAt(c, ss, acts, k)
  }

  ghost predicate StepAt(c: Config, ss: seq<State>, acts: seq<Action>, k: nat)
    requires c.Valid() && k < |acts| && |ss| == |acts| + 1
  {
    Can(c, ss[k], acts[k]) && ss[k + 1] == Do(c, ss[k], acts[k])
  }
}
