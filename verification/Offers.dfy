/** The browser-offer table of src/platform/ipc_socket.c: at most 64 live offers, each waiting,
    confirmed as one download, or dismissed. */
module Offers {

  const SLOTS := 64
  const TTL := 600
  const ATTEMPTS := 16

  datatype OfferState = Waiting | Confirmed | Dismissed

  /** `serial` is bookkeeping: which registration filled the slot. */
  datatype Slot = Slot(offerId: nat, requestId: string, url: string, state: OfferState,
                       downloadId: nat, touchedAt: int, serial: nat)

  const EMPTY := Slot(0, "", "", Waiting, 0, 0, 0)

  /** `issued` counts registrations and `made` lists the registrations that led to a download, in
      order; both are bookkeeping. */
  datatype Table = Table(slots: seq<Slot>, issued: nat, made: seq<nat>)

  // ----- searches -----

  /** The first slot that holds the offer; the length when none does. */
  function OfferAt(slots: seq<Slot>, id: nat): (i: nat)
    ensures i <= |slots|
    ensures i < |slots| ==> id != 0 && slots[i].offerId == id
    ensures i == |slots| && id != 0 ==> forall k :: 0 <= k < |slots| ==> slots[k].offerId != id
    ensures forall k :: 0 <= k < i ==> id == 0 || slots[k].offerId != id
  {
    if slots == [] || (id != 0 && slots[0].offerId == id) then 0 else 1 + OfferAt(slots[1..], id)
  }

  function RequestAt(slots: seq<Slot>, request: string): (i: nat)
    ensures i <= |slots|
    ensures i < |slots| ==> slots[i].offerId != 0 && slots[i].requestId == request
    ensures forall k :: 0 <= k < i ==> slots[k].offerId == 0 || slots[k].requestId != request
  {
    if slots == [] || (slots[0].offerId != 0 && slots[0].requestId == request) then 0
    else 1 + RequestAt(slots[1..], request)
  }

  function FreeAt(slots: seq<Slot>): (i: nat)
    ensures i <= |slots| && (i < |slots| ==> slots[i].offerId == 0)
    ensures forall k :: 0 <= k < i ==> slots[k].offerId != 0
  {
    if slots == [] || slots[0].offerId == 0 then 0 else 1 + FreeAt(slots[1..])
  }

  /** The first random id, of those drawn, that is nonzero and not in use; 0 when all are spent. */
  function FreshId(slots: seq<Slot>, drawn: seq<nat>): (id: nat)
    ensures id != 0 ==> id in drawn && OfferAt(slots, id) == |slots|
  {
    if drawn == [] then 0
    else if drawn[0] != 0 && OfferAt(slots, drawn[0]) == |slots| then drawn[0]
    else FreshId(slots, drawn[1..])
  }

  // ----- operations -----

  datatype Action =
    | Offer(request: string, url: string, drawn: seq<nat>)   // a message that parsed
    | Get(id: nat)
    | Confirm(id: nat, reserved: nat)      // what reserving a download would return
    | Dismiss(id: nat)
    | Expire(unfinished: set<nat>)         // downloads that are listed and not done, failed or canceled
    | Stop

  predicate Stale(s: Slot, now: int, unfinished: set<nat>) {
    s.offerId != 0 && now - s.touchedAt > TTL && !(s.state == Confirmed && s.downloadId in unfinished)
  }

  function Swept(slots: seq<Slot>, now: int, unfinished: set<nat>): (r: seq<Slot>)
    ensures |r| == |slots|
    ensures forall i :: 0 <= i < |r| ==> r[i] == if Stale(slots[i], now, unfinished) then EMPTY else slots[i]
  {
    if slots == [] then []
    else [if Stale(slots[0], now, unfinished) then EMPTY else slots[0]] + Swept(slots[1..], now, unfinished)
  }

  /** Every branch of the message handlers that touches the table. */
  function Apply(t: Table, a: Action, now: int): Table {
    match a
    case Offer(request, url, drawn) =>
      var i := FreeAt(t.slots);
      var id := FreshId(t.slots, drawn);
      if RequestAt(t.slots, request) < |t.slots| || i == |t.slots| || id == 0 then t
      else t.(slots := t.slots[i := Slot(id, request, url, Waiting, 0, now, t.issued)], issued := t.issued + 1)
    case Get(id) =>
      var i := OfferAt(t.slots, id);
      if i == |t.slots| then t else t.(slots := t.slots[i := t.slots[i].(touchedAt := now)])
    case Confirm(id, reserved) =>
      var i := OfferAt(t.slots, id);
      if i == |t.slots| || t.slots[i].state != Waiting || reserved == 0 then t
      else t.(slots := t.slots[i := t.slots[i].(downloadId := reserved, state := Confirmed, touchedAt := now)],
              made := t.made + [t.slots[i].serial])
    case Dismiss(id) =>
      var i := OfferAt(t.slots, id);
      if i == |t.slots| || t.slots[i].state != Waiting then t
      else t.(slots := t.slots[i := t.slots[i].(state := Dismissed, touchedAt := now)])
    case Expire(unfinished) => t.(slots := Swept(t.slots, now, unfinished))
    case Stop => t.(slots := seq(|t.slots|, i => EMPTY))
  }

  /** What the caller of a confirm is told. */
  function ConfirmReply(t: Table, id: nat, reserved: nat): nat {
    var i := OfferAt(t.slots, id);
    if i == |t.slots| then 0
    else match t.slots[i].state
      case Confirmed => t.slots[i].downloadId
      case Waiting => reserved
      case Dismissed => 0
  }

  // ----- what every operation keeps -----

  predicate SlotOk(t: Table, s: Slot) {
    s.offerId != 0 ==>
      && (s.state == Confirmed <==> s.downloadId != 0)
      && s.serial < t.issued
      && (s.serial in t.made <==> s.state == Confirmed)
  }

  predicate Apart(a: Slot, b: Slot) {
    a.offerId != 0 && b.offerId != 0 ==>
      a.offerId != b.offerId && a.requestId != b.requestId && a.serial != b.serial
  }

  ghost predicate Inv(t: Table) {
    && |t.slots| == SLOTS
    && (forall i :: 0 <= i < |t.slots| ==> SlotOk(t, t.slots[i]))
    && (forall i, j :: 0 <= i < j < |t.slots| ==> Apart(t.slots[i], t.slots[j]))
    && (forall k :: 0 <= k < |t.made| ==> t.made[k] < t.issued)
    && (forall i, j :: 0 <= i < j < |t.made| ==> t.made[i] != t.made[j])
  }

  /** A changed slot stays apart from the others. */
  lemma ApartAfter(t: Table, slots: seq<Slot>, i: nat)
    requires Inv(t) && i < |t.slots| && |slots| == |t.slots|
    requires forall k :: 0 <= k < |slots| && k != i ==> slots[k] == t.slots[k]
    requires forall k :: 0 <= k < |slots| && k != i ==> Apart(slots[i], t.slots[k]) && Apart(t.slots[k], slots[i])
    ensures forall j, k :: 0 <= j < k < |slots| ==> Apart(slots[j], slots[k])
  {
    forall j, k | 0 <= j < k < |slots| ensures Apart(slots[j], slots[k]) {
      assert Apart(t.slots[j], t.slots[k]);
    }
  }

  lemma OfferSafe(t: Table, a: Action, now: int)
    requires Inv(t) && a.Offer?
    ensures Inv(Apply(t, a, now))
  {
    var u := Apply(t, a, now);
    var i := FreeAt(t.slots);
    if u != t {
      forall k | 0 <= k < |t.slots| && k != i
        ensures Apart(u.slots[i], t.slots[k]) && Apart(t.slots[k], u.slots[i])
      {
        assert SlotOk(t, t.slots[k]);
      }
      ApartAfter(t, u.slots, i);
      forall k | 0 <= k < |u.slots| ensures SlotOk(u, u.slots[k]) {
        assert SlotOk(t, t.slots[k]);
      }
    }
  }

  lemma TouchSafe(t: Table, a: Action, now: int)
    requires Inv(t) && (a.Get? || a.Confirm? || a.Dismiss?)
    ensures Inv(Apply(t, a, now))
  {
    var u := Apply(t, a, now);
    var i := OfferAt(t.slots, a.id);
    if u != t {
      forall k | 0 <= k < |t.slots| && k != i
        ensures Apart(u.slots[i], t.slots[k]) && Apart(t.slots[k], u.slots[i])
      {
        assert Apart(t.slots[if i < k then i else k], t.slots[if i < k then k else i]);
      }
      ApartAfter(t, u.slots, i);
      assert SlotOk(t, t.slots[i]);
      forall k | 0 <= k < |u.slots| ensures SlotOk(u, u.slots[k]) {
        assert SlotOk(t, t.slots[k]);
        if k != i { assert Apart(t.slots[if i < k then i else k], t.slots[if i < k then k else i]); }
      }
    }
  }

  lemma StepSafe(t: Table, a: Action, now: int)
    requires Inv(t)
    ensures Inv(Apply(t, a, now))
  {
    match a
    case Offer(_, _, _) => OfferSafe(t, a, now);
    case Get(_) => TouchSafe(t, a, now);
    case Confirm(_, _) => TouchSafe(t, a, now);
    case Dismiss(_) => TouchSafe(t, a, now);
    case Expire(unfinished) =>
      var u := Apply(t, a, now);
      forall i | 0 <= i < |u.slots| ensures SlotOk(u, u.slots[i]) { assert SlotOk(t, t.slots[i]); }
      forall i, j | 0 <= i < j < |u.slots| ensures Apart(u.slots[i], u.slots[j]) {
        assert Apart(t.slots[i], t.slots[j]);
      }
    case Stop =>
  }

  // ----- runs -----

  /** An operation and the time it runs at. */
  datatype Event = Event(action: Action, now: int)

  function Run(t: Table, events: seq<Event>): Table
    decreases |events|
  {
    if events == [] then t else Run(Apply(t, events[0].action, events[0].now), events[1..])
  }

  const INITIAL := Table(seq(SLOTS, i => EMPTY), 0, [])

  lemma {:induction false} RunSafe(t: Table, events: seq<Event>)
    requires Inv(t)
    ensures Inv(Run(t, events))
    decreases |events|
  {
    if events != [] {
      StepSafe(t, events[0].action, events[0].now);
      RunSafe(Apply(t, events[0].action, events[0].now), events[1..]);
    }
  }

  /** In every run the live offers have pairwise distinct offer ids and request ids, an offer is
      confirmed exactly when it has a download, and no registration leads to two downloads. */
  lemma LiveOffersDistinct(events: seq<Event>)
    ensures var t := Run(INITIAL, events);
      && (forall i, j :: 0 <= i < j < |t.slots| && t.slots[i].offerId != 0 && t.slots[j].offerId != 0 ==>
            t.slots[i].offerId != t.slots[j].offerId && t.slots[i].requestId != t.slots[j].requestId)
      && (forall i :: 0 <= i < |t.slots| && t.slots[i].offerId != 0 ==>
            (t.slots[i].state == Confirmed <==> t.slots[i].downloadId != 0))
      && (forall i, j :: 0 <= i < j < |t.made| ==> t.made[i] != t.made[j])
  {
    RunSafe(INITIAL, events);
    var t := Run(INITIAL, events);
    forall i, j | 0 <= i < j < |t.slots| && t.slots[i].offerId != 0 && t.slots[j].offerId != 0
      ensures t.slots[i].offerId != t.slots[j].offerId && t.slots[i].requestId != t.slots[j].requestId
    {
      assert Apart(t.slots[i], t.slots[j]);
    }
    forall i | 0 <= i < |t.slots| && t.slots[i].offerId != 0
      ensures t.slots[i].state == Confirmed <==> t.slots[i].downloadId != 0
    {
      assert SlotOk(t, t.slots[i]);
    }
  }

  /** The registration can no longer lead to a download: its slot, if it is still live, is not waiting. */
  ghost predicate Closed(t: Table, serial: nat) {
    serial < t.issued &&
    forall i :: 0 <= i < |t.slots| && t.slots[i].offerId != 0 && t.slots[i].serial == serial ==>
      t.slots[i].state != Waiting
  }

  lemma ClosedStays(t: Table, a: Action, now: int, serial: nat)
    requires Inv(t) && Closed(t, serial)
    ensures Closed(Apply(t, a, now), serial)
    ensures serial in Apply(t, a, now).made <==> serial in t.made
  {
  }

  lemma {:induction false} ClosedForGood(t: Table, events: seq<Event>, serial: nat)
    requires Inv(t) && Closed(t, serial)
    ensures serial in Run(t, events).made <==> serial in t.made
    decreases |events|
  {
    if events != [] {
      StepSafe(t, events[0].action, events[0].now);
      ClosedStays(t, events[0].action, events[0].now, serial);
      ClosedForGood(Apply(t, events[0].action, events[0].now), events[1..], serial);
    }
  }

  /** A dismissed offer has led to no download and never will, whatever follows. */
  lemma DismissedYieldsNone(before: seq<Event>, after: seq<Event>, i: nat)
    requires var t := Run(INITIAL, before);
      i < |t.slots| && t.slots[i].offerId != 0 && t.slots[i].state == Dismissed
    ensures var t := Run(INITIAL, before); t.slots[i].serial !in Run(t, after).made
  {
    var t := Run(INITIAL, before);
    RunSafe(INITIAL, before);
    assert SlotOk(t, t.slots[i]);
    forall k | 0 <= k < |t.slots| && k != i && t.slots[k].offerId != 0
      ensures t.slots[k].serial != t.slots[i].serial
    {
      assert Apart(t.slots[if i < k then i else k], t.slots[if i < k then k else i]);
    }
    ClosedForGood(t, after, t.slots[i].serial);
  }

  /** Dismissing an offer that is not confirmed: the client is told so, a confirm right after it is refused, and no
      download ever comes of the registration. */
  lemma DismissIsFinal(before: seq<Event>, id: nat, now: int, reserved: nat, after: seq<Event>)
    requires var t := Run(INITIAL, before);
      OfferAt(t.slots, id) < |t.slots| && t.slots[OfferAt(t.slots, id)].state != Confirmed
    ensures var t := Run(INITIAL, before);
      var u := Apply(t, Dismiss(id), now);
      && ConfirmReply(u, id, reserved) == 0
      && t.slots[OfferAt(t.slots, id)].serial !in Run(u, after).made
  {
    var t := Run(INITIAL, before);
    var u := Apply(t, Dismiss(id), now);
    var i := OfferAt(t.slots, id);
    RunThen(INITIAL, before, Event(Dismiss(id), now));
    SameOfferAt(t.slots, u.slots, id);
    DismissedYieldsNone(before + [Event(Dismiss(id), now)], after, i);
  }

  lemma {:induction false} RunThen(t: Table, events: seq<Event>, e: Event)
    ensures Run(t, events + [e]) == Apply(Run(t, events), e.action, e.now)
    decreases |events|
  {
    if events == [] {
      assert [e][1..] == [] && events + [e] == [e];
      assert Run(Apply(t, e.action, e.now), []) == Apply(t, e.action, e.now);
    } else {
      RunThen(Apply(t, events[0].action, events[0].now), events[1..], e);
      assert (events + [e])[1..] == events[1..] + [e];
    }
  }

  /** An offer that is registered, looked at, confirmed or dismissed is safe from expiry for ten minutes. */
  lemma TouchedSurvives(t: Table, a: Action, now: int, later: int, unfinished: set<nat>, i: nat)
    requires Inv(t) && i < |t.slots| && !a.Expire? && later - now <= 600
    requires var u := Apply(t, a, now);
      u.slots[i].offerId != 0 && (u.slots[i] != t.slots[i] || (a.Get? && i == OfferAt(t.slots, a.id)))
    ensures var u := Apply(t, a, now); Apply(u, Expire(unfinished), later).slots[i] == u.slots[i]
  {
  }

  /** There are never more than 64 live offers, and none after a stop. */
  lemma AtMost64(events: seq<Event>, now: int)
    ensures |Run(INITIAL, events).slots| == 64
    ensures forall s :: s in Apply(Run(INITIAL, events), Stop, now).slots ==> s.offerId == 0
  {
    RunSafe(INITIAL, events);
  }

  /** Confirming again changes nothing and repeats the answer. */
  lemma ConfirmAgain(t: Table, id: nat, reserved: nat, again: nat, now: int, later: int)
    requires Inv(t) && ConfirmReply(t, id, reserved) != 0
    ensures var u := Apply(t, Confirm(id, reserved), now);
      && ConfirmReply(u, id, again) == ConfirmReply(t, id, reserved)
      && Apply(u, Confirm(id, again), later) == u
  {
    var u := Apply(t, Confirm(id, reserved), now);
    var i := OfferAt(t.slots, id);
    assert SlotOk(t, t.slots[i]);
    SameOfferAt(t.slots, u.slots, id);
  }

  lemma {:induction false} SameOfferAt(xs: seq<Slot>, ys: seq<Slot>, id: nat)
    requires |xs| == |ys| && forall k :: 0 <= k < |xs| ==> xs[k].offerId == ys[k].offerId
    ensures OfferAt(xs, id) == OfferAt(ys, id)
  {
    if xs != [] {
      SameOfferAt(xs[1..], ys[1..], id);
    }
  }

  /** Expiry drops exactly the offers left alone for ten minutes, and never one that is confirmed while
      its download is unfinished. */
  lemma ExpiryDropsExactly(t: Table, now: int, unfinished: set<nat>, i: nat)
    requires Inv(t) && i < |t.slots| && t.slots[i].offerId != 0
    ensures var u := Apply(t, Expire(unfinished), now);
      if now - t.slots[i].touchedAt > TTL && (t.slots[i].downloadId == 0 || t.slots[i].downloadId !in unfinished)
      then u.slots[i].offerId == 0 else u.slots[i] == t.slots[i]
  {
    assert SlotOk(t, t.slots[i]);
  }

  // ----- the table in memory -----

  class OfferTable {
    const slots: array<Slot>
    var issued: nat
    var made: seq<nat>

    ghost predicate Valid()
      reads this, slots
    {
      slots.Length == SLOTS && Inv(View())
    }

    ghost function View(): Table
      reads this, slots
    {
      Table(slots[..], issued, made)
    }

    constructor ()
      ensures Valid() && fresh(slots) && View() == INITIAL
    {
      slots := new Slot[SLOTS](i => EMPTY);
      issued, made := 0, [];
      new;
      assert slots[..] == seq(SLOTS, i => EMPTY);
    }

    /** `browser_find_offer`. */
    method FindOffer(id: nat) returns (i: nat)
      requires Valid()
      ensures i == OfferAt(slots[..], id)
    {
      i := 0;
      while i < slots.Length && !(id != 0 && slots[i].offerId == id)
        invariant 0 <= i <= slots.Length
        invariant OfferAt(slots[..], id) == i + OfferAt(slots[i..], id)
      {
        assert slots[i..][1..] == slots[i + 1..];
        i := i + 1;
      }
    }

    /** `browser_find_request`. */
    method FindRequest(request: string) returns (i: nat)
      requires Valid()
      ensures i == RequestAt(slots[..], request)
    {
      i := 0;
      while i < slots.Length && !(slots[i].offerId != 0 && slots[i].requestId == request)
        invariant 0 <= i <= slots.Length
        invariant RequestAt(slots[..], request) == i + RequestAt(slots[i..], request)
      {
        assert slots[i..][1..] == slots[i + 1..];
        i := i + 1;
      }
    }

    /** The scan for an empty slot. */
    method FindFree() returns (i: nat)
      requires Valid()
      ensures i == FreeAt(slots[..])
    {
      i := 0;
      while i < slots.Length && slots[i].offerId != 0
        invariant 0 <= i <= slots.Length
        invariant FreeAt(slots[..]) == i + FreeAt(slots[i..])
      {
        assert slots[i..][1..] == slots[i + 1..];
        i := i + 1;
      }
    }

    /** The loop that draws random ids. */
    method DrawId(drawn: seq<nat>) returns (id: nat)
      requires Valid()
      ensures id == FreshId(slots[..], drawn)
    {
      id := 0;
      var attempt := 0;
      while attempt < |drawn| && id == 0
        invariant 0 <= attempt <= |drawn|
        invariant FreshId(slots[..], drawn) == if id != 0 then id else FreshId(slots[..], drawn[attempt..])
      {
        id := drawn[attempt];
        assert drawn[attempt..][1..] == drawn[attempt + 1..];
        var i := FindOffer(id);
        if i < slots.Length {
          id := 0;
        }
        attempt := attempt + 1;
      }
    }

    /** The offer message; the reply is an empty slot when the offer is refused. */
    method Offer(request: string, url: string, drawn: seq<nat>, now: int) returns (reply: Slot)
      requires Valid() && |drawn| == ATTEMPTS
      modifies this, slots
      ensures Valid() && View() == Apply(old(View()), Action.Offer(request, url, drawn), now)
      ensures var t := old(View());
        var known, free := RequestAt(t.slots, request), FreeAt(t.slots);
        reply.offerId != 0 <==> if known < SLOTS then t.slots[known].url == url else free < SLOTS && FreshId(t.slots, drawn) != 0
      ensures reply.offerId != 0 ==> reply in slots[..] && reply.requestId == request && reply.url == url
      ensures reply.offerId == 0 ==> reply == EMPTY
    {
      StepSafe(View(), Action.Offer(request, url, drawn), now);
      var i := FindRequest(request);
      if i < slots.Length {
        return if slots[i].url != url then EMPTY else slots[i];
      }
      i := FindFree();
      if i == slots.Length {
        return EMPTY;
      }
      var id := DrawId(drawn);
      if id == 0 {
        return EMPTY;
      }
      reply := Slot(id, request, url, Waiting, 0, now, issued);
      slots[i] := reply;
      issued := issued + 1;
    }

    /** The get message. */
    method Get(id: nat, now: int) returns (reply: Slot)
      requires Valid()
      modifies this, slots
      ensures Valid() && View() == Apply(old(View()), Action.Get(id), now)
      ensures reply.offerId == if OfferAt(old(slots[..]), id) < SLOTS then id else 0
    {
      StepSafe(View(), Action.Get(id), now);
      var i := FindOffer(id);
      if i == slots.Length {
        return EMPTY;
      }
      slots[i] := slots[i].(touchedAt := now);
      reply := slots[i];
    }

    /** The confirm message. */
    method Confirm(id: nat, reserved: nat, now: int) returns (download: nat)
      requires Valid()
      modifies this, slots
      ensures Valid() && View() == Apply(old(View()), Action.Confirm(id, reserved), now)
      ensures download == ConfirmReply(old(View()), id, reserved)
    {
      StepSafe(View(), Action.Confirm(id, reserved), now);
      download := 0;
      var i := FindOffer(id);
      if i < slots.Length && slots[i].state == Confirmed {
        download := slots[i].downloadId;
      } else if i < slots.Length && slots[i].state == Waiting {
        download := reserved;
        if download != 0 {
          made := made + [slots[i].serial];
          slots[i] := slots[i].(downloadId := download, state := Confirmed, touchedAt := now);
        }
      }
    }

    /** The dismiss message: 0 done, 1 not found, 2 refused. */
    method Dismiss(id: nat, now: int) returns (result: nat)
      requires Valid()
      modifies this, slots
      ensures Valid() && View() == Apply(old(View()), Action.Dismiss(id), now)
      ensures var i := OfferAt(old(slots[..]), id);
        result == if i == SLOTS then 1 else if old(slots[..])[i].state == Confirmed then 2 else 0
    {
      StepSafe(View(), Action.Dismiss(id), now);
      result := 1;
      var i := FindOffer(id);
      if i < slots.Length && slots[i].state == Waiting {
        slots[i] := slots[i].(state := Dismissed, touchedAt := now);
        result := 0;
      } else if i < slots.Length && slots[i].state == Dismissed {
        result := 0;
      } else if i < slots.Length {
        result := 2;
      }
    }

    /** `browser_expire_offers`. */
    method ExpireOffers(now: int, unfinished: set<nat>)
      requires Valid()
      modifies this, slots
      ensures Valid() && View() == Apply(old(View()), Expire(unfinished), now)
    {
      StepSafe(View(), Expire(unfinished), now);
      ghost var was := slots[..];
      var i := 0;
      while i < slots.Length
        invariant 0 <= i <= slots.Length && issued == old(issued) && made == old(made)
        invariant forall k :: 0 <= k < i ==> slots[k] == if Stale(was[k], now, unfinished) then EMPTY else was[k]
        invariant forall k :: i <= k < slots.Length ==> slots[k] == was[k]
      {
        var s := slots[i];
        if s.offerId != 0 && !(now - s.touchedAt <= TTL) {
          if !(s.state == Confirmed && s.downloadId in unfinished) {
            slots[i] := EMPTY;
          }
        }
        i := i + 1;
      }
    }
  }
}
