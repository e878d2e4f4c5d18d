/** The shared token bucket of src/platform/bandwidth.c: one refilling thread and any number of
    acquiring threads, with every load and every compare-and-swap a step of its own. */
module TokenBucket {
  import opened Common

  const BUCKET_FRACTION_MS := 500

  /** Bytes per second; the cap is a nonzero 64-bit word that does not change. */
  datatype Config = Config(cap: nat) {
    predicate Valid() { 0 < cap < TWO64 }
  }

  /** The tokens of `ms` milliseconds, as the 64-bit arithmetic computes them. */
  function Tokens(c: Config, ms: nat): nat {
    ((c.cap * ms) % TWO64) / 1000
  }

  function MaxBucket(c: Config): nat {
    if Tokens(c, BUCKET_FRACTION_MS) < 1 then 1 else Tokens(c, BUCKET_FRACTION_MS)
  }

  /** Where the refilling thread stands in `bandwidth_tick`. */
  datatype Ticker = Waiting | Adding(add: nat) | Swapping(add: nat, seen: int)

  /** Where an acquiring thread stands in `bandwidth_acquire`. */
  datatype User = Out | Looping(bytes: nat, remaining: nat) | Taking(bytes: nat, remaining: nat, seen: int)

  /** `granted`, `paid`, `wasted` and `credited` are bookkeeping: tokens taken out of the bucket, bytes
      of the calls that returned true, tokens taken by calls that returned false, and the time up to
      which refills have reached the bucket. */
  datatype State = State(
    tokens: int, last: nat, ticker: Ticker, users: seq<User>, now: nat,
    granted: nat, paid: nat, wasted: nat, credited: nat)

  datatype Action =
    | Wait(ms: nat) | Tick | TickLoad | TickSwap(ok: bool)
    | Call(u: nat, bytes: nat) | Load(u: nat) | Swap(u: nat, ok: bool) | GiveUp(u: nat) | Finish(u: nat)

  predicate Can(s: State, a: Action) {
    match a
    case Wait(_) => true
    case Tick => s.ticker.Waiting?
    case TickLoad => s.ticker.Adding?
    // a weak compare-and-swap may also fail for no reason
    case TickSwap(ok) => s.ticker.Swapping? && (ok ==> s.tokens == s.ticker.seen)
    case Call(u, _) => u < |s.users| && s.users[u].Out?
    case Load(u) => u < |s.users| && s.users[u].Looping? && s.users[u].remaining > 0
    case Swap(u, ok) => u < |s.users| && s.users[u].Taking? && (ok ==> s.tokens == s.users[u].seen)
    case GiveUp(u) => u < |s.users| && s.users[u].Looping? && s.users[u].remaining > 0
    case Finish(u) => u < |s.users| && s.users[u].Looping? && s.users[u].remaining == 0
  }

  function Min(a: int, b: int): int { if a < b then a else b }

  function Do(c: Config, s: State, a: Action): State
    requires Can(s, a)
  {
    match a
    case Wait(ms) => s.(now := s.now + ms)
    case Tick =>
      if s.last == 0 then s.(last := s.now, credited := s.now)
      else if s.now <= s.last then s
      else s.(last := s.now, ticker := Adding(Tokens(c, s.now - s.last)))
    case TickLoad => s.(ticker := Swapping(s.ticker.add, s.tokens))
    case TickSwap(ok) =>
      if !ok then s.(ticker := Adding(s.ticker.add))
      else s.(tokens := Min(s.ticker.seen + s.ticker.add, MaxBucket(c)), ticker := Waiting, credited := s.last)
    case Call(u, bytes) => s.(users := s.users[u := Looping(bytes, bytes)])
    case Load(u) =>
      var w := s.users[u];
      if s.tokens <= 0 then s else s.(users := s.users[u := Taking(w.bytes, w.remaining, s.tokens)])
    case Swap(u, ok) =>
      var w := s.users[u];
      if !ok then s.(users := s.users[u := Looping(w.bytes, w.remaining)])
      else
        var take := if w.seen < w.remaining && w.seen >= 0 then w.seen else w.remaining;
        s.(tokens := w.seen - take, granted := s.granted + take,
           users := s.users[u := Looping(w.bytes, w.remaining - take)])
    case GiveUp(u) =>
      var w := s.users[u];
      s.(users := s.users[u := Out], wasted := s.wasted + if w.remaining <= w.bytes then w.bytes - w.remaining else 0)
    case Finish(u) => s.(users := s.users[u := Out], paid := s.paid + s.users[u].bytes)
  }

  /** The state after a run, when every step of it is possible. */
  function Exec(c: Config, s: State, acts: seq<Action>): Option<State>
    decreases |acts|
  {
    if acts == [] then Some(s)
    else if Can(s, acts[0]) then Exec(c, Do(c, s, acts[0]), acts[1..]) else None
  }

  predicate Init(s: State) {
    && s.tokens == 0 && s.last == 0 && s.credited == 0 && s.ticker.Waiting?
    && s.granted == 0 && s.paid == 0 && s.wasted == 0
    && forall u :: 0 <= u < |s.users| ==> s.users[u].Out?
  }

  /** The bucket holds half a second of the rate, and at least a byte. */
  lemma BucketIsHalfASecond(c: Config)
    requires c.Valid() && c.cap * 500 < TWO64
    ensures MaxBucket(c) == if c.cap >= 2 then c.cap / 2 else 1
  {
    assert c.cap * 500 / 1000 == c.cap / 2;
  }

  // ----- what every step keeps -----

  function Spent(w: User): int {
    if w.Out? then 0 else w.bytes - w.remaining
  }

  /** Tokens held by calls still in progress. */
  function InFlight(users: seq<User>): int {
    if users == [] then 0 else InFlight(users[1..]) + Spent(users[0])
  }

  predicate UserOk(w: User) {
    && (!w.Out? ==> w.remaining <= w.bytes)
    && (w.Taking? ==> w.seen > 0 && w.remaining > 0)
  }

  ghost predicate Inv(c: Config, s: State) {
    && 0 <= s.tokens <= MaxBucket(c)
    && s.credited <= s.last <= s.now
    && (s.ticker.Waiting? ==> s.credited == s.last)
    && (!s.ticker.Waiting? ==> s.credited > 0 && s.ticker.add == Tokens(c, s.last - s.credited))
    && (forall u :: 0 <= u < |s.users| ==> UserOk(s.users[u]))
    && s.granted == s.paid + s.wasted + InFlight(s.users)
  }

  lemma {:induction false} InFlightUpdate(users: seq<User>, u: nat, w: User)
    requires u < |users|
    ensures InFlight(users[u := w]) == InFlight(users) - Spent(users[u]) + Spent(w)
  {
    if u == 0 {
      assert users[u := w][1..] == users[1..];
    } else {
      InFlightUpdate(users[1..], u - 1, w);
      assert users[u := w][1..] == users[1..][u - 1 := w];
    }
  }

  lemma {:induction false} InFlightOut(users: seq<User>)
    requires forall u :: 0 <= u < |users| ==> users[u].Out?
    ensures InFlight(users) == 0
  {
    if users != [] { InFlightOut(users[1..]); }
  }

  lemma StepSafe(c: Config, s: State, a: Action)
    requires c.Valid() && Inv(c, s) && Can(s, a)
    ensures Inv(c, Do(c, s, a))
  {
    var t := Do(c, s, a);
    if a.Call? || a.Load? || a.Swap? || a.GiveUp? || a.Finish? {
      InFlightUpdate(s.users, a.u, t.users[a.u]);
      assert UserOk(s.users[a.u]) && UserOk(t.users[a.u]);
      assert s.users[a.u := t.users[a.u]] == t.users;
    }
  }

  /** Under every interleaving the tokens stay between zero and the bucket size, and every token ever
      taken is in a call that returned true (which took exactly what it asked for), in a call that
      gave up, or in a call in progress. */
  lemma {:induction false} RunSafe(c: Config, s: State, acts: seq<Action>)
    requires c.Valid() && Inv(c, s) && Exec(c, s, acts).Some?
    ensures Inv(c, Exec(c, s, acts).value)
    decreases |acts|
  {
    if acts != [] {
      StepSafe(c, s, acts[0]);
      RunSafe(c, Do(c, s, acts[0]), acts[1..]);
    }
  }

  lemma TokensConserved(c: Config, s: State, acts: seq<Action>)
    requires c.Valid() && Init(s) && Exec(c, s, acts).Some?
    ensures var t := Exec(c, s, acts).value;
      && 0 <= t.tokens <= MaxBucket(c)
      && t.granted == t.paid + t.wasted + InFlight(t.users)
  {
    InFlightOut(s.users);
    RunSafe(c, s, acts);
  }

  /** The sum inside the refill never leaves a signed 64-bit word, although the product may wrap. */
  lemma RefillFits(c: Config, s: State)
    requires c.Valid() && Inv(c, s) && s.ticker.Swapping?
    ensures s.tokens + s.ticker.add < TWO64 / 2
  {
    assert Tokens(c, s.last - s.credited) <= TWO64 / 1000;
    assert MaxBucket(c) <= TWO64 / 1000;
  }

  // ----- the rate -----

  /** Tokens in the bucket or granted, in thousandths, less what the credited time is worth. */
  function Level(c: Config, s: State): int {
    1000 * (s.tokens + s.granted) - c.cap * s.credited
  }

  lemma TokensAtMost(c: Config, ms: nat)
    ensures 1000 * Tokens(c, ms) <= c.cap * ms
  {
    ModAtMost(c.cap * ms);
  }

  lemma ModAtMost(x: nat)
    ensures x % TWO64 <= x
  {
  }

  lemma StepLevel(c: Config, s: State, a: Action)
    requires c.Valid() && Inv(c, s) && Can(s, a)
    ensures Level(c, Do(c, s, a)) <= Level(c, s)
    ensures Do(c, s, a).granted >= s.granted && Do(c, s, a).now >= s.now
    ensures a != TickSwap(true) ==> Do(c, s, a).tokens + Do(c, s, a).granted == s.tokens + s.granted
  {
    if a.Tick? {
      MulMonotone(c.cap, s.credited, Do(c, s, a).credited);
    } else if a == TickSwap(true) {
      SwapLevel(c, s);
    } else if a.Swap? {
      assert UserOk(s.users[a.u]);
    }
  }

  lemma SwapLevel(c: Config, s: State)
    requires Inv(c, s) && Can(s, TickSwap(true))
    ensures Level(c, Do(c, s, TickSwap(true))) <= Level(c, s)
  {
    TokensAtMost(c, s.last - s.credited);
    assert c.cap * (s.last - s.credited) == c.cap * s.last - c.cap * s.credited;
  }

  lemma {:induction false} RunLevel(c: Config, s: State, acts: seq<Action>)
    requires c.Valid() && Inv(c, s) && Exec(c, s, acts).Some?
    ensures Level(c, Exec(c, s, acts).value) <= Level(c, s)
    decreases |acts|
  {
    if acts != [] {
      StepSafe(c, s, acts[0]);
      StepLevel(c, s, acts[0]);
      RunLevel(c, Do(c, s, acts[0]), acts[1..]);
    }
  }

  /** In any stretch of any run, whatever the rounding of each refill, the tokens granted are at most
      a bucket plus the rate times the time credited during the stretch. */
  lemma GrantedAtMost(c: Config, s: State, acts: seq<Action>)
    requires c.Valid() && Inv(c, s) && Exec(c, s, acts).Some?
    ensures var t := Exec(c, s, acts).value;
      1000 * (t.granted - s.granted) <= 1000 * MaxBucket(c) + c.cap * (t.credited - s.credited)
  {
    var t := Exec(c, s, acts).value;
    RunSafe(c, s, acts);
    RunLevel(c, s, acts);
    LevelsApart(c, s, t, MaxBucket(c));
  }

  lemma LevelsApart(c: Config, s: State, t: State, bucket: nat)
    requires s.tokens <= bucket && 0 <= t.tokens && Level(c, t) <= Level(c, s)
    ensures 1000 * (t.granted - s.granted) <= 1000 * bucket + c.cap * (t.credited - s.credited)
  {
    assert c.cap * (t.credited - s.credited) == c.cap * t.credited - c.cap * s.credited;
  }

  /** The promised bound over a stretch of wall-clock time. */
  ghost predicate WindowBound(c: Config, s: State, acts: seq<Action>) {
    Exec(c, s, acts).Some? ==>
      var t := Exec(c, s, acts).value;
      1000 * (t.granted - s.granted) <= 1000 * MaxBucket(c) + c.cap * (t.now - s.now)
  }

  lemma MulMonotone(k: nat, x: int, y: int)
    requires x <= y
    ensures k * x <= k * y
  {
  }

  /** The tokens of a refill under way, as far as they fit an empty bucket. */
  function Arriving(c: Config, s: State): nat {
    if s.ticker.Waiting? then 0 else Min(s.ticker.add, MaxBucket(c))
  }

  /** What a refill begun in `w` milliseconds could bring to an empty bucket. */
  function Pending(c: Config, s: State, w: nat): nat {
    if s.last == 0 || s.now < s.last then 0 else Min(Tokens(c, s.now - s.last + w), MaxBucket(c))
  }

  /** Of a stretch that began at time `from` with `granted` tokens given out: spending everything that
      is there, arriving or pending in `w` milliseconds stays within the promised bound. */
  predicate FitsIn(c: Config, s: State, granted: nat, from: nat, w: nat) {
    1000 * (s.granted - granted + s.tokens + Arriving(c, s) + Pending(c, s, w))
      <= 1000 * MaxBucket(c) + c.cap * (s.now + w - from)
  }

  ghost predicate Fits(c: Config, s: State, granted: nat, from: nat) {
    forall w: nat :: FitsIn(c, s, granted, from, w)
  }

  lemma WaitFits(c: Config, s: State, ms: nat, granted: nat, from: nat)
    requires Inv(c, s) && Fits(c, s, granted, from)
    ensures Fits(c, Do(c, s, Wait(ms)), granted, from)
  {
    forall w: nat ensures FitsIn(c, Do(c, s, Wait(ms)), granted, from, w) {
      assert FitsIn(c, s, granted, from, ms + w);
    }
  }

  lemma TickFits(c: Config, s: State, granted: nat, from: nat)
    requires Inv(c, s) && Can(s, Tick) && Fits(c, s, granted, from)
    ensures Fits(c, Do(c, s, Tick), granted, from)
  {
    var t := Do(c, s, Tick);
    forall w: nat ensures FitsIn(c, t, granted, from, w) {
      if t != s {
        assert FitsIn(c, s, granted, from, 0);
        TokensAtMost(c, w);
        Later(c.cap, s.now - from, w);
      } else {
        assert FitsIn(c, s, granted, from, w);
      }
    }
  }

  lemma Later(cap: nat, x: int, w: nat)
    ensures cap * (x + w) == cap * x + cap * w
  {
  }

  lemma StepFits(c: Config, s: State, a: Action, granted: nat, from: nat)
    requires Inv(c, s) && Can(s, a) && Fits(c, s, granted, from)
    ensures Fits(c, Do(c, s, a), granted, from)
  {
    if a.Wait? {
      WaitFits(c, s, a.ms, granted, from);
    } else if a.Tick? {
      TickFits(c, s, granted, from);
    } else {
      var t := Do(c, s, a);
      if a.Swap? { assert UserOk(s.users[a.u]); }
      assert t.granted + t.tokens + Arriving(c, t) <= s.granted + s.tokens + Arriving(c, s);
      forall w: nat ensures FitsIn(c, t, granted, from, w) {
        assert FitsIn(c, s, granted, from, w);
      }
    }
  }

  lemma {:induction false} RunFits(c: Config, s: State, acts: seq<Action>, granted: nat, from: nat)
    requires c.Valid() && Inv(c, s) && Exec(c, s, acts).Some? && Fits(c, s, granted, from)
    ensures Fits(c, Exec(c, s, acts).value, granted, from)
    decreases |acts|
  {
    if acts != [] {
      StepSafe(c, s, acts[0]);
      StepFits(c, s, acts[0], granted, from);
      RunFits(c, Do(c, s, acts[0]), acts[1..], granted, from);
    }
  }

  lemma FitsSuffices(c: Config, s: State, acts: seq<Action>)
    requires c.Valid() && Inv(c, s) && Fits(c, s, s.granted, s.now)
    ensures WindowBound(c, s, acts)
  {
    if Exec(c, s, acts).Some? {
      var t := Exec(c, s, acts).value;
      RunSafe(c, s, acts);
      RunFits(c, s, acts, s.granted, s.now);
      assert FitsIn(c, t, s.granted, s.now, 0);
    }
  }

  /** Whatever is pending, a stretch of wall-clock time grants at most three buckets besides what the
      time is worth: one that is there, one arriving and one not yet credited. */
  lemma ThreeBuckets(c: Config, s: State, acts: seq<Action>)
    requires c.Valid() && Inv(c, s) && Exec(c, s, acts).Some?
    ensures var t := Exec(c, s, acts).value;
      1000 * (t.granted - s.granted) <= 3000 * MaxBucket(c) + c.cap * (t.now - s.now)
  {
    var base := s.granted + 2 * MaxBucket(c);
    forall w: nat ensures FitsIn(c, s, base, s.now, w) {
      MulMonotone(c.cap, 0, s.now + w - s.now);
    }
    RunSafe(c, s, acts);
    RunFits(c, s, acts, base, s.now);
    assert FitsIn(c, Exec(c, s, acts).value, base, s.now, 0);
  }

  // ----- spending everything -----

  lemma {:induction false} ExecConcat(c: Config, s: State, xs: seq<Action>, ys: seq<Action>)
    requires Exec(c, s, xs).Some?
    ensures Exec(c, s, xs + ys) == Exec(c, Exec(c, s, xs).value, ys)
    decreases |xs|
  {
    if xs == [] {
      assert xs + ys == ys;
    } else {
      ExecConcat(c, Do(c, s, xs[0]), xs[1..], ys);
      assert (xs + ys)[1..] == xs[1..] + ys;
    }
  }

  lemma ExecTwo(c: Config, s: State, a: Action, b: Action)
    requires Can(s, a) && Can(Do(c, s, a), b)
    ensures Exec(c, s, [a, b]) == Some(Do(c, Do(c, s, a), b))
  {
    var t := Do(c, s, a);
    assert [b][1..] == [];
    assert Exec(c, t, [b]) == Exec(c, Do(c, t, b), []);
    assert [a, b][1..] == [b];
  }

  /** The state once user `u` has emptied the bucket. */
  function Emptied(s: State, u: nat): State
    requires u < |s.users| && s.users[u].Looping? && s.users[u].remaining >= s.tokens >= 0
  {
    s.(tokens := 0, granted := s.granted + s.tokens,
       users := s.users[u := Looping(s.users[u].bytes, s.users[u].remaining - s.tokens)])
  }

  lemma TakeAll(c: Config, s: State, u: nat) returns (acts: seq<Action>)
    requires u < |s.users| && s.users[u].Looping? && s.users[u].remaining >= s.tokens >= 0
    ensures Exec(c, s, acts) == Some(Emptied(s, u))
  {
    if s.tokens == 0 {
      acts := [];
      assert Emptied(s, u).users == s.users;
    } else {
      acts := [Load(u), Swap(u, true)];
      ExecTwo(c, s, Load(u), Swap(u, true));
      assert Do(c, Do(c, s, Load(u)), Swap(u, true)).users == Emptied(s, u).users;
    }
  }

  /** The state once the refill under way has reached an empty bucket. */
  function Filled(c: Config, s: State): State {
    s.(tokens := s.tokens + Arriving(c, s), ticker := Waiting,
       credited := if s.ticker.Waiting? then s.credited else s.last)
  }

  lemma AddAll(c: Config, s: State) returns (acts: seq<Action>)
    requires s.tokens == 0
    ensures Exec(c, s, acts) == Some(Filled(c, s))
  {
    acts := [];
    var t := s;
    if t.ticker.Swapping? {
      acts := [TickSwap(false)];
      t := Do(c, s, TickSwap(false));
      assert Exec(c, t, []) == Some(t);
    }
    if t.ticker.Adding? {
      ExecTwo(c, t, TickLoad, TickSwap(true));
      ExecConcat(c, s, acts, [TickLoad, TickSwap(true)]);
      acts := acts + [TickLoad, TickSwap(true)];
    }
  }

  /** What `Collect` leads to: everything there and arriving is with user `u`. */
  function Collected(c: Config, s: State, u: nat): State
    requires u < |s.users| && s.users[u].Looping? && s.tokens >= 0
    requires s.users[u].remaining >= s.tokens + Arriving(c, s)
  {
    Emptied(Filled(c, Emptied(s, u)), u)
  }

  lemma Collect(c: Config, s: State, u: nat) returns (acts: seq<Action>)
    requires u < |s.users| && s.users[u].Looping? && s.tokens >= 0
    requires s.users[u].remaining >= s.tokens + Arriving(c, s)
    ensures Exec(c, s, acts) == Some(Collected(c, s, u))
  {
    var first := TakeAll(c, s, u);
    var second := AddAll(c, Emptied(s, u));
    var third := TakeAll(c, Filled(c, Emptied(s, u)), u);
    ExecConcat(c, s, first, second);
    ExecConcat(c, s, first + second, third);
    acts := first + second + third;
  }

  /** The state with `ms` more milliseconds gone and, when there is time to credit, a refill begun. */
  function Ticked(c: Config, s: State, ms: nat): State
    requires s.ticker.Waiting?
  {
    var t := s.(now := s.now + ms);
    if s.last == 0 then t else Do(c, t, Tick)
  }

  lemma TickLater(c: Config, s: State, ms: nat) returns (acts: seq<Action>)
    requires s.ticker.Waiting?
    ensures Exec(c, s, acts) == Some(Ticked(c, s, ms))
  {
    var t := Do(c, s, Wait(ms));
    assert Exec(c, t, []) == Some(t);
    if s.last == 0 {
      acts := [Wait(ms)];
    } else {
      acts := [Wait(ms), Tick];
      ExecTwo(c, s, Wait(ms), Tick);
    }
  }

  lemma TickedArrives(c: Config, s: State, ms: nat)
    requires Inv(c, s) && s.ticker.Waiting?
    ensures var t := Ticked(c, s, ms);
      && Arriving(c, t) == Pending(c, s, ms)
      && t.now == s.now + ms && t.tokens == s.tokens && t.granted == s.granted && t.users == s.users
  {
    NoTokens(c);
  }

  lemma NoTokens(c: Config)
    ensures Tokens(c, 0) == 0
  {
  }

  /** A waiting user can take what is there and arriving at once, and what is pending after a while. */
  lemma TakeLater(c: Config, s: State, u: nat, w: nat) returns (acts: seq<Action>)
    requires Inv(c, s) && u < |s.users| && s.users[u].Looping? && s.ticker.Waiting?
    requires s.tokens == 0 && s.users[u].remaining >= Pending(c, s, w)
    ensures Exec(c, s, acts).Some? && Exec(c, s, acts).value.now == s.now + w
    ensures Exec(c, s, acts).value.granted == s.granted + Pending(c, s, w)
  {
    acts := TickLater(c, s, w);
    var t := Ticked(c, s, w);
    TickedArrives(c, s, w);
    var more := Collect(c, t, u);
    ExecConcat(c, s, acts, more);
    acts := acts + more;
  }

  lemma CallAndTake(c: Config, s: State, u: nat, spare: nat) returns (acts: seq<Action>, t: State)
    requires c.Valid() && Inv(c, s) && u < |s.users| && s.users[u].Out?
    ensures Exec(c, s, acts) == Some(t) && Inv(c, t) && t.now == s.now && t.last == s.last
    ensures t.granted == s.granted + s.tokens + Arriving(c, s) && t.tokens == 0 && t.ticker.Waiting?
    ensures u < |t.users| && t.users[u].Looping? && t.users[u].remaining == spare
  {
    var call := Call(u, s.tokens + Arriving(c, s) + spare);
    var s1 := Do(c, s, call);
    assert Exec(c, s1, []) == Some(s1);
    var more := Collect(c, s1, u);
    ExecConcat(c, s, [call], more);
    acts, t := [call] + more, Collected(c, s1, u);
    RunSafe(c, s, acts);
  }

  /** A free user can spend everything that is there, arriving and pending in `w` milliseconds. */
  lemma SpendAll(c: Config, s: State, u: nat, w: nat) returns (acts: seq<Action>)
    requires c.Valid() && Inv(c, s) && u < |s.users| && s.users[u].Out?
    ensures Exec(c, s, acts).Some? && Exec(c, s, acts).value.now == s.now + w
    ensures Exec(c, s, acts).value.granted == s.granted + s.tokens + Arriving(c, s) + Pending(c, s, w)
  {
    var t;
    acts, t := CallAndTake(c, s, u, Pending(c, s, w));
    var more := TakeLater(c, t, u, w);
    ExecConcat(c, s, acts, more);
    acts := acts + more;
  }

  // ----- when the promised bound holds -----

  /** From any state in which some user is free, the promised bound holds of every continuation exactly
      when spending what is there, arriving and pending in any number of milliseconds meets it. */
  lemma WindowBoundExact(c: Config, s: State, u: nat)
    requires c.Valid() && Inv(c, s) && u < |s.users| && s.users[u].Out?
    ensures (forall acts :: WindowBound(c, s, acts)) <==> Fits(c, s, s.granted, s.now)
  {
    if Fits(c, s, s.granted, s.now) {
      forall acts ensures WindowBound(c, s, acts) { FitsSuffices(c, s, acts); }
    } else {
      var w: nat :| !FitsIn(c, s, s.granted, s.now, w);
      var acts := SpendAll(c, s, u, w);
      assert !WindowBound(c, s, acts);
    }
  }

  /** What pending time is worth, in thousandths of a token. */
  function Due(c: Config, s: State): int {
    if s.last == 0 then 0 else Min(c.cap * (s.now - s.last), 1000 * MaxBucket(c))
  }

  /** Enough for the bound: with pending time at its worth there is no more than a bucket. */
  lemma WorthSuffices(c: Config, s: State)
    requires c.Valid() && Inv(c, s)
    requires 1000 * (s.tokens + Arriving(c, s)) + Due(c, s) <= 1000 * MaxBucket(c)
    ensures Fits(c, s, s.granted, s.now)
  {
    forall w: nat ensures FitsIn(c, s, s.granted, s.now, w) {
      PendingWorth(c, s, w);
      assert s.now + w - s.now == w;
    }
  }

  lemma PendingWorth(c: Config, s: State, w: nat)
    requires Inv(c, s)
    ensures 1000 * Pending(c, s, w) <= Due(c, s) + c.cap * w
  {
    MulMonotone(c.cap, 0, w);
    if s.last > 0 {
      TokensAtMost(c, s.now - s.last + w);
      Later(c.cap, s.now - s.last, w);
    }
  }

  /** The same in whole tokens, wherever rounding and wrap-around leave no gap: the bound holds of
      every continuation exactly when there is no more than a bucket to spend at once. */
  lemma WindowBoundNow(c: Config, s: State, u: nat)
    requires c.Valid() && Inv(c, s) && u < |s.users| && s.users[u].Out?
    requires s.last > 0 ==> c.cap * (s.now - s.last) < TWO64
    requires var now := s.tokens + Arriving(c, s) + Pending(c, s, 0);
      now == MaxBucket(c) ==> 1000 * (s.tokens + Arriving(c, s)) + Due(c, s) <= 1000 * MaxBucket(c)
    ensures (forall acts :: WindowBound(c, s, acts))
      <==> s.tokens + Arriving(c, s) + Pending(c, s, 0) <= MaxBucket(c)
  {
    WindowBoundExact(c, s, u);
    DueRounded(c, s);
    if s.tokens + Arriving(c, s) + Pending(c, s, 0) <= MaxBucket(c) {
      WorthSuffices(c, s);
    } else {
      assert !FitsIn(c, s, s.granted, s.now, 0);
    }
  }

  lemma DueRounded(c: Config, s: State)
    requires Inv(c, s) && (s.last > 0 ==> c.cap * (s.now - s.last) < TWO64)
    ensures Due(c, s) < 1000 * Pending(c, s, 0) + 1000
  {
    if s.last > 0 {
      var ms := s.now - s.last;
      TokensRounded(c, ms);
      assert Pending(c, s, 0) == Min(Tokens(c, ms), MaxBucket(c));
    }
  }

  lemma TokensRounded(c: Config, ms: nat)
    requires c.cap * ms < TWO64
    ensures c.cap * ms < 1000 * Tokens(c, ms) + 1000
  {
    Rounded(c.cap * ms);
  }

  lemma Rounded(x: nat)
    requires x < TWO64
    ensures x < 1000 * ((x % TWO64) / 1000) + 1000
  {
  }

  /** A stretch that opens with all time credited meets the promised bound. */
  lemma WindowFromRefill(c: Config, s: State, acts: seq<Action>)
    requires c.Valid() && Inv(c, s) && s.credited == s.now
    ensures WindowBound(c, s, acts)
  {
    NoTokens(c);
    MulMonotone(c.cap, s.now - s.last, 0);
    WorthSuffices(c, s);
    FitsSuffices(c, s, acts);
  }

  /** From a full bucket, at a rate of at least a byte a millisecond, the bound holds of every
      continuation exactly when no time is pending. */
  lemma FullBucketExact(c: Config, s: State, u: nat)
    requires 1000 <= c.cap < TWO64
    requires Inv(c, s) && s.ticker.Waiting? && s.tokens == MaxBucket(c) && s.last > 0
    requires u < |s.users| && s.users[u].Out?
    requires c.cap * (s.now - s.last) < TWO64
    ensures (forall acts :: WindowBound(c, s, acts)) <==> s.now == s.last
  {
    WindowBoundExact(c, s, u);
    if s.now == s.last {
      WorthSuffices(c, s);
    } else {
      PendingTokens(c, s.now - s.last);
      assert !FitsIn(c, s, s.granted, s.now, 0);
    }
  }

  lemma PendingTokens(c: Config, ms: nat)
    requires c.cap >= 1000 && ms >= 1 && c.cap * ms < TWO64
    ensures Tokens(c, ms) >= 1
  {
    MulMonotone(c.cap, 1, ms);
  }
}
