/** The download list of src/core/queue_manager.c: what its walks compute, and the walks. */
module Queue {
  import opened Common

  datatype Status = Queued | Active | Paused | Done | Error | Canceled

  /** A list entry. `runs` and `failedAt` are bookkeeping of the model: engine starts since the
      user last queued the entry, and the time of the last retryable failure. */
  datatype Download = Download(
    id: nat, status: Status, cancel: bool, pause: bool,
    retryCount: nat, nextRetryAt: int, priority: int,
    runs: nat, failedAt: int)

  // ----- list functions -----

  /** The first entry with the given id. */
  function Lookup(q: seq<Download>, id: nat): (r: Option<Download>)
    ensures r.Some? ==> r.value.id == id
  {
    if q == [] then None else if q[0].id == id then Some(q[0]) else Lookup(q[1..], id)
  }

  /** The list with its first entry for `d.id` replaced by `d`. */
  function Update(q: seq<Download>, d: Download): (r: seq<Download>)
    ensures |r| == |q|
  {
    if q == [] then [] else if q[0].id == d.id then [d] + q[1..] else [q[0]] + Update(q[1..], d)
  }

  /** The list without its first entry for `id`. */
  function Remove(q: seq<Download>, id: nat): (r: seq<Download>)
    ensures |r| <= |q|
  {
    if q == [] then [] else if q[0].id == id then q[1..] else [q[0]] + Remove(q[1..], id)
  }

  function Count(q: seq<Download>, s: Status): nat {
    if q == [] then 0 else Count(q[1..], s) + (if q[0].status == s then 1 else 0)
  }

  ghost predicate Distinct(q: seq<Download>) {
    forall i, j :: 0 <= i < j < |q| ==> q[i].id != q[j].id
  }

  // ----- how they interact -----

  lemma {:induction false} LookupUpdate(q: seq<Download>, d: Download, id: nat)
    ensures Lookup(Update(q, d), id) ==
      if id == d.id && Lookup(q, id).Some? then Some(d) else Lookup(q, id)
  {
    if q != [] && q[0].id != d.id {
      LookupUpdate(q[1..], d, id);
      assert Update(q, d)[1..] == Update(q[1..], d);
    }
  }

  lemma {:induction false} LookupRemove(q: seq<Download>, gone: nat, id: nat)
    requires Distinct(q)
    ensures Lookup(Remove(q, gone), id) == if id == gone then None else Lookup(q, id)
  {
    if q != [] {
      if q[0].id == gone {
        LookupAbsent(q[1..], gone);
      } else {
        LookupRemove(q[1..], gone, id);
        assert Remove(q, gone)[1..] == Remove(q[1..], gone);
      }
    }
  }

  lemma {:induction false} LookupAbsent(q: seq<Download>, id: nat)
    requires forall i :: 0 <= i < |q| ==> q[i].id != id
    ensures Lookup(q, id) == None
  {
    if q != [] { LookupAbsent(q[1..], id); }
  }

  lemma {:induction false} LookupAt(q: seq<Download>, j: nat)
    requires Distinct(q) && j < |q|
    ensures Lookup(q, q[j].id) == Some(q[j])
  {
    if j > 0 { LookupAt(q[1..], j - 1); }
  }

  lemma LookupCons(d: Download, q: seq<Download>, id: nat)
    ensures Lookup([d] + q, id) == if id == d.id then Some(d) else Lookup(q, id)
  {
    assert ([d] + q)[1..] == q;
  }

  lemma {:induction false} LookupIn(q: seq<Download>, id: nat)
    requires Lookup(q, id).Some?
    ensures exists j :: 0 <= j < |q| && q[j].id == id
  {
    if q[0].id != id {
      LookupIn(q[1..], id);
      var j :| 0 <= j < |q[1..]| && q[1..][j].id == id;
      assert q[j + 1].id == id;
    }
  }

  lemma {:induction false} UpdateIds(q: seq<Download>, d: Download)
    ensures forall i :: 0 <= i < |q| ==> Update(q, d)[i].id == q[i].id
  {
    if q != [] && q[0].id != d.id { UpdateIds(q[1..], d); }
  }

  lemma {:induction false} RemoveKeepsRest(q: seq<Download>, gone: nat)
    ensures forall d :: d in Remove(q, gone) ==> d in q
    ensures Distinct(q) ==> Distinct(Remove(q, gone))
  {
    if q != [] && q[0].id != gone {
      RemoveKeepsRest(q[1..], gone);
      var r, r' := Remove(q, gone), Remove(q[1..], gone);
      assert r == [q[0]] + r';
      if Distinct(q) {
        forall i, j | 0 <= i < j < |r| ensures r[i].id != r[j].id {
          assert r[j] == r'[j - 1] && r'[j - 1] in q[1..];
          if i > 0 { assert r[i] == r'[i - 1]; }
        }
      }
    }
  }

  /** Ids are pairwise distinct and below `bound`. */
  ghost predicate IdsBelow(q: seq<Download>, bound: nat) {
    Distinct(q) && forall d :: d in q ==> d.id < bound
  }

  lemma IdsBelowUpdate(q: seq<Download>, d: Download, bound: nat)
    requires IdsBelow(q, bound)
    ensures IdsBelow(Update(q, d), bound)
  {
    UpdateIds(q, d);
    forall e | e in Update(q, d) ensures e.id < bound {
      var i :| 0 <= i < |q| && Update(q, d)[i] == e;
      assert q[i] in q;
    }
  }

  lemma LookupBelow(q: seq<Download>, id: nat, bound: nat)
    requires IdsBelow(q, bound) && id >= bound
    ensures Lookup(q, id) == None
  {
    forall i | 0 <= i < |q| ensures q[i].id != id { assert q[i] in q; }
    LookupAbsent(q, id);
  }

  lemma {:induction false} CountUpdate(q: seq<Download>, d: Download, s: Status)
    requires Lookup(q, d.id).Some?
    ensures Count(Update(q, d), s) == Count(q, s)
      - (if Lookup(q, d.id).value.status == s then 1 else 0) + (if d.status == s then 1 else 0)
  {
    if q[0].id == d.id {
      assert Update(q, d)[1..] == q[1..];
    } else {
      CountUpdate(q[1..], d, s);
      assert Update(q, d)[1..] == Update(q[1..], d);
    }
  }

  lemma {:induction false} CountRemove(q: seq<Download>, gone: nat, s: Status)
    ensures Count(Remove(q, gone), s) <= Count(q, s)
  {
    if q != [] && q[0].id != gone {
      CountRemove(q[1..], gone, s);
      assert Remove(q, gone)[1..] == Remove(q[1..], gone);
    }
  }

  // ----- choosing the next download -----

  predicate Eligible(d: Download, now: int) {
    d.status == Queued && (d.nextRetryAt == 0 || d.nextRetryAt <= now)
  }

  /** Entry `j` is eligible, none is of higher priority, and none before it is its equal. */
  predicate IsNext(q: seq<Download>, now: int, j: nat) {
    j < |q| && Eligible(q[j], now) &&
    forall i :: 0 <= i < |q| && Eligible(q[i], now) ==>
      q[i].priority <= q[j].priority && (i < j ==> q[i].priority < q[j].priority)
  }

  /** There is at most one next download. */
  lemma NextIsUnique(q: seq<Download>, now: int, j: nat, k: nat)
    requires IsNext(q, now, j) && IsNext(q, now, k)
    ensures j == k
  {
    assert Eligible(q[j], now) && Eligible(q[k], now);
  }

  // ----- the walks -----

  class QueueManager {
    var list: seq<Download>
    var nextId: nat

    constructor ()
      ensures list == [] && nextId == 1
    {
      list := [];
      nextId := 1;
    }

    /** The walk of every `cur->id == id` loop. */
    method Find(id: nat) returns (j: nat)
      ensures j <= |list|
      ensures j < |list| ==> list[j].id == id && Lookup(list, id) == Some(list[j])
      ensures j == |list| ==> Lookup(list, id).None?
      ensures forall d: Download :: d.id == id && j < |list| ==> Update(list, d) == list[j := d]
      ensures j < |list| ==> Remove(list, id) == list[..j] + list[j + 1..]
    {
      j := 0;
      while j < |list| && list[j].id != id
        invariant 0 <= j <= |list|
        invariant forall i :: 0 <= i < j ==> list[i].id != id
      {
        j := j + 1;
      }
      FirstMatch(list, id, j);
    }

    /** `queue_manager_find_next_queued`. */
    method FindNextQueued(now: int) returns (best: Option<nat>)
      ensures best.Some? ==> IsNext(list, now, best.value)
      ensures best.None? ==> forall i :: 0 <= i < |list| ==> !Eligible(list[i], now)
    {
      best := None;
      var i := 0;
      while i < |list|
        invariant 0 <= i <= |list|
        invariant best.None? ==> forall k :: 0 <= k < i ==> !Eligible(list[k], now)
        invariant best.Some? ==> best.value < i && IsNext(list[..i], now, best.value)
      {
        if Eligible(list[i], now) && (best.None? || list[i].priority > list[best.value].priority) {
          best := Some(i);
        }
        i := i + 1;
      }
      assert list[..i] == list;
    }

    /** `queue_manager_count_by_status`. */
    method CountByStatus(s: Status) returns (n: nat)
      ensures n == Count(list, s)
    {
      n := 0;
      var i := |list|;
      while i > 0
        invariant 0 <= i <= |list|
        invariant n == Count(list[i..], s)
      {
        i := i - 1;
        assert list[i..][1..] == list[i + 1..];
        if list[i].status == s {
          n := n + 1;
        }
      }
      assert list[0..] == list;
    }

    /** The locked section of `queue_manager_add`; the counter is an unsigned 32-bit word. */
    method Add(d: Download) returns (id: nat)
      modifies this
      ensures id == old(nextId)
      ensures list == [d.(id := id)] + old(list) && nextId == (old(nextId) + 1) % 0x1_0000_0000
    {
      id := nextId;
      nextId := (nextId + 1) % 0x1_0000_0000;
      list := [d.(id := id)] + list;
    }

    /** `queue_manager_add_existing`. */
    method AddExisting(d: Download)
      modifies this
      ensures list == [d] + old(list)
      ensures nextId == if d.id >= old(nextId) then (d.id + 1) % 0x1_0000_0000 else old(nextId)
    {
      if d.id >= nextId {
        nextId := (d.id + 1) % 0x1_0000_0000;
      }
      list := [d] + list;
    }

    /** `queue_manager_seed_next_id`. */
    method SeedNextId(least: nat)
      modifies this
      ensures list == old(list) && nextId == if least > old(nextId) then least else old(nextId)
    {
      if least > nextId {
        nextId := least;
      }
    }

    /** `queue_manager_remove`: an active entry is only asked to cancel. */
    method RemoveEntry(id: nat)
      modifies this
      ensures list == RemoveSpec(old(list), id) && nextId == old(nextId)
    {
      var j := Find(id);
      if j < |list| {
        if list[j].status == Active {
          list := list[j := list[j].(cancel := true)];
        } else {
          list := list[..j] + list[j + 1..];
        }
      }
    }

    /** `queue_manager_cancel`. */
    method Cancel(id: nat) returns (wasActive: bool)
      modifies this
      ensures list == CancelSpec(old(list), id) && nextId == old(nextId)
      ensures wasActive <==> Lookup(old(list), id).Some? && Lookup(old(list), id).value.status == Active
    {
      wasActive := false;
      var j := Find(id);
      if j < |list| {
        if list[j].status == Active {
          list := list[j := list[j].(cancel := true)];
          wasActive := true;
        } else {
          list := list[j := list[j].(status := Canceled)];
        }
      }
    }

    /** `queue_manager_pause`. */
    method Pause(id: nat) returns (wasActive: bool)
      modifies this
      ensures list == PauseSpec(old(list), id) && nextId == old(nextId)
      ensures wasActive <==> Lookup(old(list), id).Some? && Lookup(old(list), id).value.status == Active
    {
      wasActive := false;
      var j := Find(id);
      if j < |list| {
        if list[j].status == Active {
          list := list[j := list[j].(pause := true)];
          wasActive := true;
        } else if list[j].status == Queued {
          list := list[j := list[j].(status := Paused)];
        }
      }
    }

    /** `queue_manager_resume`. */
    method Resume(id: nat) returns (resumed: bool)
      modifies this
      ensures list == ResumeSpec(old(list), id) && nextId == old(nextId)
      ensures resumed <==> Lookup(old(list), id).Some? && Lookup(old(list), id).value.status in {Paused, Error}
    {
      resumed := false;
      var j := Find(id);
      if j < |list| {
        if list[j].status == Paused || list[j].status == Error {
          list := list[j := Requeued(list[j])];
          resumed := true;
        }
      }
    }

    /** `queue_manager_update_status`. */
    method UpdateStatus(id: nat, s: Status)
      modifies this
      ensures list == UpdateStatusSpec(old(list), id, s) && nextId == old(nextId)
    {
      var j := Find(id);
      if j < |list| {
        list := list[j := list[j].(status := s)];
      }
    }
  }

  /** Walking to the first match locates what the list functions speak about. */
  lemma {:induction false} FirstMatch(q: seq<Download>, id: nat, j: nat)
    requires j <= |q| && (forall i :: 0 <= i < j ==> q[i].id != id) && (j < |q| ==> q[j].id == id)
    ensures Lookup(q, id) == if j < |q| then Some(q[j]) else None
    ensures forall d: Download :: d.id == id && j < |q| ==> Update(q, d) == q[j := d]
    ensures j < |q| ==> Remove(q, id) == q[..j] + q[j + 1..]
  {
    if j > 0 {
      FirstMatch(q[1..], id, j - 1);
      forall d: Download | d.id == id && j < |q| ensures Update(q, d) == q[j := d] {
        assert Update(q[1..], d) == q[1..][j - 1 := d];
      }
      if j < |q| { assert Remove(q[1..], id) == q[1..][..j - 1] + q[1..][j..]; }
    }
  }

  // ----- the effect of each call on the list -----

  function Requeued(d: Download): Download {
    d.(pause := false, cancel := false, retryCount := 0, nextRetryAt := 0, status := Queued, runs := 0)
  }

  function RemoveSpec(q: seq<Download>, id: nat): seq<Download> {
    match Lookup(q, id)
    case None => q
    case Some(d) => if d.status == Active then Update(q, d.(cancel := true)) else Remove(q, id)
  }

  function CancelSpec(q: seq<Download>, id: nat): seq<Download> {
    match Lookup(q, id)
    case None => q
    case Some(d) => Update(q, if d.status == Active then d.(cancel := true) else d.(status := Canceled))
  }

  function PauseSpec(q: seq<Download>, id: nat): seq<Download> {
    match Lookup(q, id)
    case None => q
    case Some(d) =>
      if d.status == Active then Update(q, d.(pause := true))
      else if d.status == Queued then Update(q, d.(status := Paused)) else q
  }

  function ResumeSpec(q: seq<Download>, id: nat): seq<Download> {
    match Lookup(q, id)
    case None => q
    case Some(d) => if d.status in {Paused, Error} then Update(q, Requeued(d)) else q
  }

  function UpdateStatusSpec(q: seq<Download>, id: nat, s: Status): seq<Download> {
    match Lookup(q, id)
    case None => q
    case Some(d) => Update(q, d.(status := s))
  }
}
