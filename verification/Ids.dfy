/** Download ids across adds, crashes and restarts: the queue's counter, the stored rows of
    src/persistence/db.c, and the restore at start-up. */
module Ids {
  import opened Common
  import opened Queue
  import Scheduler

  const LIMIT := 0x8000_0000

  /** A stored row; the status is the stored string. */
  datatype Row = Row(id: nat, status: string, priority: int)

  // ----- restoring -----

  /** The mapping of the stored status. */
  function FromStatus(s: string): Status {
    if s == "PAUSED" then Paused
    else if s == "ERROR" then Error
    else if s == "CANCELED" then Canceled
    else Queued
  }

  /** The text the daemon stores for a status. */
  function StoredText(status: Status): string {
    match status
    case Queued => "QUEUED"
    case Active => "ACTIVE"
    case Paused => "PAUSED"
    case Done => "DONE"
    case Error => "ERROR"
    case Canceled => "CANCELED"
  }

  /** A restart keeps the status of every unfinished row, but that an interrupted download is queued again, and
      its priority; the retry fields and flags are clear. */
  lemma {:induction false} RestoresEach(rows: seq<Row>, i: nat, status: Status)
    requires RowsOk(rows) && i < |rows| && rows[i].status == StoredText(status) && status != Done
    ensures var d := Lookup(Restored(rows), rows[i].id);
      && d.Some? && d.value.status == (if status == Active then Queued else status)
      && d.value.priority == rows[i].priority
      && !d.value.cancel && !d.value.pause && d.value.retryCount == 0 && d.value.nextRetryAt == 0
  {
    TextsDiffer(status);
    InRestored(rows, i);
    RestoredDistinct(rows, MaxId(rows) + 1);
    var j :| 0 <= j < |Restored(rows)| && Restored(rows)[j] == ToDownload(rows[i]);
    LookupAt(Restored(rows), j);
  }

  lemma {:induction false} TextsDiffer(status: Status)
    ensures StoredText(status) == "DONE" <==> status == Done
    ensures status != Done ==> FromStatus(StoredText(status)) == if status == Active then Queued else status
  {
    assert "QUEUED"[0] == 'Q' && "ACTIVE"[0] == 'A' && "PAUSED"[0] == 'P' && "DONE"[0] == 'D' && "ERROR"[0] == 'E';
    assert "CANCELED"[0] == 'C';
  }

  lemma {:induction false} InRestored(rows: seq<Row>, i: nat)
    requires i < |rows| && rows[i].status != "DONE"
    ensures ToDownload(rows[i]) in Restored(rows)
  {
    var n := |rows| - 1;
    if i < n {
      InRestored(rows[..n], i);
      assert rows[..n][i] == rows[i];
    }
  }

  /** A zeroed entry with the columns that matter here. */
  function ToDownload(r: Row): Download {
    Download(r.id, FromStatus(r.status), false, false, 0, 0, r.priority, 0, 0)
  }

  /** The list the restore builds: every row that is not DONE, the last one first. */
  function Restored(rows: seq<Row>): seq<Download> {
    if rows == [] then []
    else
      var before := Restored(rows[..|rows| - 1]);
      var r := rows[|rows| - 1];
      if r.status == "DONE" then before else [ToDownload(r)] + before
  }

  function MaxId(rows: seq<Row>): (m: nat)
    ensures forall i :: 0 <= i < |rows| ==> rows[i].id <= m
    ensures rows != [] ==> exists i :: 0 <= i < |rows| && rows[i].id == m
  {
    if rows == [] then 0
    else
      var m := MaxId(rows[1..]);
      assert forall i :: 0 < i < |rows| ==> rows[i] == rows[1..][i - 1];
      if rows[0].id > m || |rows| == 1 then rows[0].id
      else
        assert exists i :: 0 <= i < |rows[1..]| && rows[1..][i].id == m;
        m
  }

  /** Ids are the table's primary key, and fit the signed column. */
  ghost predicate RowsOk(rows: seq<Row>) {
    && (forall i, j :: 0 <= i < j < |rows| ==> rows[i].id != rows[j].id)
    && (forall i :: 0 <= i < |rows| ==> 1 <= rows[i].id < LIMIT)
  }

  lemma RestoredStep(rows: seq<Row>, i: nat)
    requires i < |rows|
    ensures Restored(rows[..i + 1])
         == if rows[i].status == "DONE" then Restored(rows[..i]) else [ToDownload(rows[i])] + Restored(rows[..i])
  {
    assert rows[..i + 1][..i] == rows[..i];
  }

  lemma {:induction false} RestoredFrom(rows: seq<Row>)
    ensures forall d :: d in Restored(rows) ==>
      exists i :: 0 <= i < |rows| && rows[i].status != "DONE" && d == ToDownload(rows[i])
  {
    if rows != [] {
      var before := rows[..|rows| - 1];
      RestoredFrom(before);
      forall d | d in Restored(rows)
        ensures exists i :: 0 <= i < |rows| && rows[i].status != "DONE" && d == ToDownload(rows[i])
      {
        if d in Restored(before) {
          var i :| 0 <= i < |before| && before[i].status != "DONE" && d == ToDownload(before[i]);
          assert rows[i] == before[i];
        } else {
          assert d == ToDownload(rows[|rows| - 1]);
        }
      }
    }
  }

  lemma {:induction false} RestoredDistinct(rows: seq<Row>, bound: nat)
    requires RowsOk(rows) && forall i :: 0 <= i < |rows| ==> rows[i].id < bound
    ensures IdsBelow(Restored(rows), bound)
  {
    if rows != [] {
      var before := rows[..|rows| - 1];
      var r := rows[|rows| - 1];
      RestoredDistinct(before, bound);
      if r.status != "DONE" {
        RestoredFrom(before);
        OneMoreBelow(ToDownload(r), Restored(before), bound);
      }
    }
  }

  lemma OneMoreBelow(d: Download, q: seq<Download>, bound: nat)
    requires IdsBelow(q, bound) && d.id < bound && forall e :: e in q ==> e.id != d.id
    ensures IdsBelow([d] + q, bound)
  {
    forall i, j | 0 <= i < j < |[d] + q| ensures ([d] + q)[i].id != ([d] + q)[j].id {
      assert ([d] + q)[j] == q[j - 1] && q[j - 1] in q;
      if i > 0 { assert ([d] + q)[i] == q[i - 1]; }
    }
  }

  /** `db_restore_queue` and the seeding that follows it at start-up. Every listed entry is a row that
      is not done, and the counter is past every row, done or not. */
  method Restore(rows: seq<Row>) returns (manager: QueueManager)
    requires RowsOk(rows)
    ensures fresh(manager)
    ensures manager.list == Restored(rows)
    ensures manager.nextId == MaxId(rows) + 1
    ensures IdsBelow(manager.list, manager.nextId)
  {
    manager := Listed(rows, MaxId(rows));
    manager.SeedNextId(MaxId(rows) + 1);
    RestoredDistinct(rows, MaxId(rows) + 1);
  }

  /** The loop over the rows. */
  method Listed(rows: seq<Row>, ghost most: nat) returns (manager: QueueManager)
    requires most < LIMIT && forall i :: 0 <= i < |rows| ==> rows[i].id <= most
    ensures fresh(manager) && manager.list == Restored(rows) && manager.nextId <= most + 1
  {
    manager := new QueueManager();
    var i := 0;
    while i < |rows|
      invariant 0 <= i <= |rows|
      invariant manager.list == Restored(rows[..i])
      invariant 1 <= manager.nextId <= most + 1
    {
      RestoredStep(rows, i);
      if rows[i].status != "DONE" {
        manager.AddExisting(ToDownload(rows[i]));
      }
      i := i + 1;
    }
    assert rows[..i] == rows;
  }

  /** A restored daemon is a start of the scheduler. */
  lemma RestoredIsInit(rows: seq<Row>, now: int)
    requires RowsOk(rows) && now > 0
    ensures Scheduler.Init(Scheduler.State(Restored(rows), MaxId(rows) + 1,
                                           seq(Scheduler.SLOTS, _ => Scheduler.Free), Scheduler.Idle, now))
  {
    RestoredFrom(rows);
    RestoredDistinct(rows, MaxId(rows) + 1);
  }

  // ----- ids over whole histories -----

  /** The running daemon's list and counter (nothing when it is down), the ids whose reservation is
      under way, and the stored rows. */
  datatype State = State(up: bool, queue: seq<Download>, nextId: nat, pending: set<nat>, rows: seq<Row>)

  datatype Action =
    | Add(d: Download)                      // the locked section of queue_manager_add
    | Store(id: nat, priority: int)         // the row of a reserved download
    | Fail(id: nat)                         // the reservation falls through
    | SetStatus(id: nat, status: string)    // a status update of a row
    | Drop(id: nat)                         // an entry leaves the list
    | Crash | Start

  function RowAt(rows: seq<Row>, id: nat): (i: nat)
    ensures i <= |rows| && (i < |rows| ==> rows[i].id == id)
    ensures i == |rows| ==> forall k :: 0 <= k < |rows| ==> rows[k].id != id
  {
    if rows == [] || rows[0].id == id then 0 else 1 + RowAt(rows[1..], id)
  }

  predicate Can(s: State, a: Action) {
    match a
    case Add(_) => s.up && s.nextId < LIMIT
    case Store(id, _) => s.up && id in s.pending
    case Fail(id) => s.up && id in s.pending
    case SetStatus(_, _) => s.up
    case Drop(_) => s.up
    case Crash => s.up
    case Start => !s.up
  }

  /** INSERT OR REPLACE: a row with the id is replaced. */
  function Insert(rows: seq<Row>, r: Row): seq<Row> {
    var i := RowAt(rows, r.id);
    if i < |rows| then rows[i := r] else rows + [r]
  }

  function Do(s: State, a: Action): State {
    match a
    case Add(d) => s.(queue := [d.(id := s.nextId)] + s.queue, nextId := s.nextId + 1,
                        pending := s.pending + {s.nextId})
    case Store(id, priority) =>
      s.(rows := Insert(s.rows, Row(id, "QUEUED", priority)), pending := s.pending - {id})
    case Fail(id) => s.(queue := Remove(s.queue, id), pending := s.pending - {id})
    case SetStatus(id, status) =>
      var i := RowAt(s.rows, id);
      if i < |s.rows| then s.(rows := s.rows[i := s.rows[i].(status := status)]) else s
    case Drop(id) => s.(queue := Remove(s.queue, id))
    case Crash => State(false, [], 1, {}, s.rows)
    case Start => State(true, Restored(s.rows), MaxId(s.rows) + 1, {}, s.rows)
  }

  ghost predicate Inv(s: State) {
    && RowsOk(s.rows) && s.nextId >= 1 && s.nextId <= LIMIT
    && (s.up ==> IdsBelow(s.queue, s.nextId))
    && (s.up ==> forall id :: id in s.pending ==> 1 <= id < s.nextId && RowAt(s.rows, id) == |s.rows|)
    && (s.up ==> forall i :: 0 <= i < |s.rows| ==> s.rows[i].id < s.nextId)
  }

  lemma AddKeeps(s: State, d: Download)
    requires Inv(s) && Can(s, Add(d))
    ensures Inv(Do(s, Add(d)))
  {
    var q := Do(s, Add(d)).queue;
    forall i, j | 0 <= i < j < |q| ensures q[i].id != q[j].id {
      assert q[j] == s.queue[j - 1] && s.queue[j - 1] in s.queue;
      if i > 0 { assert q[i] == s.queue[i - 1]; }
    }
  }

  lemma StoreKeeps(s: State, a: Action)
    requires Inv(s) && Can(s, a) && a.Store?
    ensures Inv(Do(s, a))
  {
    var t := Do(s, a);
    assert t.rows == s.rows + [Row(a.id, "QUEUED", a.priority)];
    forall id | id in t.pending ensures RowAt(t.rows, id) == |t.rows| {
      RowAbsent(t.rows, id);
    }
  }

  lemma {:induction false} RowAbsent(rows: seq<Row>, id: nat)
    ensures RowAt(rows, id) == |rows| <==> forall i :: 0 <= i < |rows| ==> rows[i].id != id
  {
    if rows != [] { RowAbsent(rows[1..], id); }
  }

  lemma StatusKeeps(s: State, a: Action)
    requires Inv(s) && Can(s, a) && a.SetStatus?
    ensures Inv(Do(s, a))
  {
    var t := Do(s, a);
    if s.up {
      forall id | id in t.pending ensures RowAt(t.rows, id) == |t.rows| {
        RowAbsent(t.rows, id);
      }
    }
  }

  lemma StartKeeps(s: State)
    requires Inv(s) && Can(s, Start)
    ensures Inv(Do(s, Start))
  {
    RestoredDistinct(s.rows, MaxId(s.rows) + 1);
    RestoredFrom(s.rows);
  }

  lemma StepSafe(s: State, a: Action)
    requires Inv(s) && Can(s, a)
    ensures Inv(Do(s, a))
  {
    match a
    case Add(d) => AddKeeps(s, d);
    case Store(_, _) => StoreKeeps(s, a);
    case Fail(id) => RemoveKeepsRest(s.queue, id);
    case Drop(id) => RemoveKeepsRest(s.queue, id);
    case SetStatus(_, _) => StatusKeeps(s, a);
    case Start => StartKeeps(s);
    case Crash =>
  }

  ghost predicate IsRun(ss: seq<State>, acts: seq<Action>) {
    |ss| == |acts| + 1 && forall k :: 0 <= k < |acts| ==> StepAt(ss, acts, k)
  }

  predicate StepAt(ss: seq<State>, acts: seq<Action>, k: nat)
    requires k < |acts| && |ss| == |acts| + 1
  {
    Can(ss[k], acts[k]) && ss[k + 1] == Do(ss[k], acts[k])
  }

  const NEW := State(false, [], 1, {}, [])

  lemma {:induction false} RunSafe(ss: seq<State>, acts: seq<Action>, k: nat)
    requires IsRun(ss, acts) && ss[0] == NEW && k < |ss|
    ensures Inv(ss[k])
  {
    if k > 0 {
      RunSafe(ss, acts, k - 1);
      assert StepAt(ss, acts, k - 1);
      StepSafe(ss[k - 1], acts[k - 1]);
    }
  }

  /** Over any history of adds, failures, crashes and restarts the listed ids are pairwise distinct, and
      an id that is issued is that of no stored row, done or not. */
  lemma FreshIdsAreNew(ss: seq<State>, acts: seq<Action>, k: nat)
    requires IsRun(ss, acts) && ss[0] == NEW && k < |acts|
    ensures Distinct(ss[k].queue)
    ensures acts[k].Add? ==>
      && (forall i :: 0 <= i < |ss[k].rows| ==> ss[k].rows[i].id != ss[k].nextId)
      && Lookup(ss[k].queue, ss[k].nextId) == None
      && |ss[k + 1].queue| > 0 && ss[k + 1].queue[0].id == ss[k].nextId
  {
    RunSafe(ss, acts, k);
    assert StepAt(ss, acts, k);
    if acts[k].Add? { LookupBelow(ss[k].queue, ss[k].nextId, ss[k].nextId); }
    assert !ss[k].up ==> ss[k].queue == [] by { DownIsEmpty(ss, acts, k); }
  }

  lemma {:induction false} DownIsEmpty(ss: seq<State>, acts: seq<Action>, k: nat)
    requires IsRun(ss, acts) && ss[0] == NEW && k < |ss|
    ensures !ss[k].up ==> ss[k].queue == []
  {
    if k > 0 {
      DownIsEmpty(ss, acts, k - 1);
      assert StepAt(ss, acts, k - 1);
    }
  }

  /** A store finds no row with its id, so INSERT OR REPLACE replaces nothing; and every stored row
      keeps its id and its place. */
  lemma {:induction false} HistoryIsKept(ss: seq<State>, acts: seq<Action>, k: nat, m: nat)
    requires IsRun(ss, acts) && ss[0] == NEW && k <= m < |ss|
    ensures |ss[k].rows| <= |ss[m].rows|
    ensures forall i :: 0 <= i < |ss[k].rows| ==> ss[m].rows[i].id == ss[k].rows[i].id
    ensures m < |acts| && acts[m].Store? ==> RowAt(ss[m].rows, acts[m].id) == |ss[m].rows|
  {
    RunSafe(ss, acts, m);
    if m < |acts| { assert StepAt(ss, acts, m); }
    if k < m {
      HistoryIsKept(ss, acts, k, m - 1);
      assert StepAt(ss, acts, m - 1);
    }
  }

  // ----- a restart -----

  /** What a crash and a restart leave of an unfinished row: its entry, with the stored status, but that an
      interrupted download is queued again. */
  lemma {:induction false} RestartKeeps(s: State, i: nat, status: Status)
    requires Inv(s) && s.up && i < |s.rows| && s.rows[i].status == StoredText(status) && status != Done
    ensures Can(s, Crash) && Can(Do(s, Crash), Start)
    ensures var t := Do(Do(s, Crash), Start);
      var e := Lookup(t.queue, s.rows[i].id);
      && t.up && t.rows == s.rows && e.Some? && e.value.priority == s.rows[i].priority
      && e.value.status == (if status == Active then Queued else status)
  {
    RestoresEach(s.rows, i, status);
  }

  /** It leaves nothing of a row that is DONE, nor of an id that was never stored. */
  lemma {:induction false} RestartDrops(s: State, id: nat)
    requires Inv(s) && s.up
    requires forall i :: 0 <= i < |s.rows| && s.rows[i].id == id ==> s.rows[i].status == "DONE"
    ensures Lookup(Do(Do(s, Crash), Start).queue, id) == None
  {
    RestoredFrom(s.rows);
    var q := Restored(s.rows);
    forall j | 0 <= j < |q| ensures q[j].id != id { assert q[j] in q; }
    LookupAbsent(q, id);
  }

  /** A reserved download that is stored is a QUEUED row of its priority; a status update changes that row's status
      to the stored text, and no other row. */
  lemma {:induction false} RowIsStored(s: State, id: nat, priority: int, status: string)
    requires Inv(s) && Can(s, Store(id, priority))
    ensures var t := Do(s, Store(id, priority)); t.rows == s.rows + [Row(id, "QUEUED", priority)] && id !in t.pending
    ensures var u := Do(Do(s, Store(id, priority)), SetStatus(id, status)); u.rows == s.rows + [Row(id, status, priority)]
  {
    RowAbsent(s.rows, id);
    var rows := s.rows + [Row(id, "QUEUED", priority)];
    RowAtEnd(s.rows, id, "QUEUED", priority);
  }

  lemma {:induction false} RowAtEnd(rows: seq<Row>, id: nat, status: string, priority: int)
    requires forall i :: 0 <= i < |rows| ==> rows[i].id != id
    ensures RowAt(rows + [Row(id, status, priority)], id) == |rows|
  {
    if rows != [] {
      assert (rows + [Row(id, status, priority)])[1..] == rows[1..] + [Row(id, status, priority)];
      RowAtEnd(rows[1..], id, status, priority);
    }
  }

  /** A reservation that falls through leaves nothing: neither an entry nor a row. */
  lemma {:induction false} FailLeavesNothing(s: State, id: nat)
    requires Inv(s) && Can(s, Fail(id))
    ensures var t := Do(s, Fail(id)); Lookup(t.queue, id) == None && RowAt(t.rows, id) == |t.rows| && id !in t.pending
  {
    LookupRemove(s.queue, id, id);
  }
}
