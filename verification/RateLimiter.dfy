/** The fixed-window limiter over one Redis counter per key (src/middlewares/rateLimiter.js). */
module RateLimiter {
  import opened Jobs

  /** A Redis key: its value, and when it expires, if EXPIRE has been sent. */
  datatype Counter = Counter(count: nat, expiresAt: Option<int>)

  /** One request that reached the limiter. An incarnation is the life of the key from its creation
      to its expiry. */
  datatype Hit = Hit(time: int, incarnation: nat, admitted: bool)

  /** A key with its past: the number of incarnations so far, the birth of the present one, and all
      hits. The past is not stored anywhere; it is what the bounds are about. */
  datatype Window = Window(counter: Option<Counter>, incarnation: nat, birth: int, log: seq<Hit>)

  const NoKey := Window(None, 0, 0, [])

  datatype Config = Config(windowSeconds: nat, maxRequests: nat)

  function WindowMs(c: Config): nat {
    1000 * c.windowSeconds
  }

  predicate Live(w: Window, time: int) {
    w.counter.Some? && (w.counter.value.expiresAt.Some? ==> time < w.counter.value.expiresAt.value)
  }

  /** INCR, and the decision that follows from its reply. */
  function Incr(c: Config, w: Window, time: int): Window {
    var count := if Live(w, time) then w.counter.value.count + 1 else 1;
    var incarnation := if Live(w, time) then w.incarnation else w.incarnation + 1;
    Window(
      Some(Counter(count, if Live(w, time) then w.counter.value.expiresAt else None)),
      incarnation,
      if Live(w, time) then w.birth else time,
      w.log + [Hit(time, incarnation, count <= c.maxRequests)])
  }

  /** EXPIRE, which the request that created the key sends some time after its INCR. Until then the
      key does not expire, so it still is the same incarnation. */
  function Expire(c: Config, w: Window, time: int): Window {
    if Live(w, time) then w.(counter := Some(w.counter.value.(expiresAt := Some(time + WindowMs(c))))) else w
  }

  /** What a refused request is told to wait: the rest of the window to the nearest second, or a
      whole window if the key has no expiry, is gone, or has less than half a second left. */
  function RetryAfter(c: Config, w: Window, time: int): (r: int)
    ensures
      if Live(w, time) && w.counter.value.expiresAt.Some? && w.counter.value.expiresAt.value - time >= 500
      then r >= 1 && 1000 * r - 500 <= w.counter.value.expiresAt.value - time < 1000 * r + 500
      else r == c.windowSeconds
  {
    var ttl :=
      if !Live(w, time) then -2
      else if w.counter.value.expiresAt.None? then -1
      else (w.counter.value.expiresAt.value - time + 500) / 1000;
    if ttl > 0 then ttl else c.windowSeconds
  }

  datatype Event = Arrive(key: string, time: int) | SetExpiry(key: string, time: int)

  type Redis = map<string, Window>

  function At(r: Redis, key: string): Window {
    if key in r then r[key] else NoKey
  }

  function Happen(c: Config, r: Redis, e: Event): Redis {
    match e
    case Arrive(key, time) => r[key := Incr(c, At(r, key), time)]
    case SetExpiry(key, time) => r[key := Expire(c, At(r, key), time)]
  }

  function Replay(c: Config, r: Redis, events: seq<Event>): Redis
    decreases events
  {
    if events == [] then r else Replay(c, Happen(c, r, events[0]), events[1..])
  }

  /** Redis serves the commands of all requests in some order; time does not run backwards. */
  predicate InOrder(events: seq<Event>, from: int) {
    && (forall i | 0 <= i < |events| :: events[i].time >= from)
    && (forall i, k | 0 <= i < k < |events| :: events[i].time <= events[k].time)
  }

  // -------------------------------------------------------------------------
  // Counting hits
  // -------------------------------------------------------------------------

  function Requests(log: seq<Hit>, incarnation: nat): nat {
    if log == [] then 0
    else Requests(log[..|log| - 1], incarnation) + if log[|log| - 1].incarnation == incarnation then 1 else 0
  }

  function Admitted(log: seq<Hit>, incarnation: nat): nat {
    if log == [] then 0
    else
      var last := log[|log| - 1];
      Admitted(log[..|log| - 1], incarnation) + if last.incarnation == incarnation && last.admitted then 1 else 0
  }

  predicate Within(h: Hit, from: int, to: int) {
    from <= h.time < to
  }

  function AdmittedWithin(log: seq<Hit>, from: int, to: int): nat {
    if log == [] then 0
    else
      var last := log[|log| - 1];
      AdmittedWithin(log[..|log| - 1], from, to) + if Within(last, from, to) && last.admitted then 1 else 0
  }

  // -------------------------------------------------------------------------
  // The invariant of one key
  // -------------------------------------------------------------------------

  predicate Counted(c: Config, w: Window) {
    && (forall i: nat | i <= w.incarnation :: Admitted(w.log, i) == Min(Requests(w.log, i), c.maxRequests))
    && (w.counter.Some? ==> w.counter.value.count == Requests(w.log, w.incarnation))
    && (forall h | h in w.log :: h.incarnation <= w.incarnation)
  }

  predicate Spaced(c: Config, w: Window, now: int) {
    && (w.counter.Some? ==> w.birth <= now)
    && (w.counter.Some? && w.counter.value.expiresAt.Some? ==> w.counter.value.expiresAt.value >= w.birth + WindowMs(c))
    && (w.counter.None? ==> w.log == [])
    && (forall h | h in w.log :: h.time <= now && h.incarnation <= w.incarnation)
    && (forall h | h in w.log && h.incarnation < w.incarnation :: h.time <= w.birth)
    && (forall h | h in w.log && h.incarnation + 2 <= w.incarnation :: h.time + WindowMs(c) <= w.birth)
    && (forall h | h in w.log && h.incarnation == w.incarnation :: h.time >= w.birth)
    && (forall i, k | 0 <= i < k < |w.log| ::
          && w.log[i].incarnation <= w.log[k].incarnation
          && (w.log[i].incarnation + 2 <= w.log[k].incarnation ==> w.log[i].time + WindowMs(c) <= w.log[k].time))
  }

  /** The hit that created incarnation i is a full window before `time`. */
  ghost predicate BornBefore(c: Config, log: seq<Hit>, i: nat, time: int) {
    exists h :: h in log && h.incarnation == i && h.admitted == (1 <= c.maxRequests) && h.time + WindowMs(c) <= time
  }

  ghost predicate Founded(c: Config, w: Window) {
    && (w.counter.Some? ==>
          exists h ::
            h in w.log && h.incarnation == w.incarnation && h.admitted == (1 <= c.maxRequests) && h.time == w.birth)
    && (w.counter.None? ==> w.log == [] && w.incarnation == 0)
    && (forall i: nat | 1 <= i < w.incarnation :: BornBefore(c, w.log, i, w.birth))
    && (forall h, i: nat | h in w.log && 1 <= i < h.incarnation :: BornBefore(c, w.log, i, h.time))
    && (forall h | h in w.log :: h.incarnation >= 1)
  }

  lemma BornLater(c: Config, log: seq<Hit>, h: Hit, i: nat, time: int, later: int)
    requires BornBefore(c, log, i, time) && time <= later
    ensures BornBefore(c, log + [h], i, later)
  {
    var b :| b in log && b.incarnation == i && b.admitted == (1 <= c.maxRequests) && b.time + WindowMs(c) <= time;
    assert b in log + [h];
  }

  lemma IncrFounded(c: Config, w: Window, time: int, now: int)
    requires Founded(c, w) && Spaced(c, w, now) && now <= time
    ensures Founded(c, Incr(c, w, time))
  {
    var w' := Incr(c, w, time);
    var hit := w'.log[|w.log|];
    assert hit in w'.log && forall h | h in w.log :: h in w'.log;
    forall i: nat | 1 <= i < w'.incarnation ensures BornBefore(c, w'.log, i, w'.birth) {
      if i < w.incarnation {
        BornLater(c, w.log, hit, i, w.birth, w'.birth);
      } else {
        var b :| b in w.log && b.incarnation == w.incarnation && b.admitted == (1 <= c.maxRequests)
                   && b.time == w.birth;
        assert b in w'.log;
      }
    }
    forall h, i: nat | h in w'.log && 1 <= i < h.incarnation ensures BornBefore(c, w'.log, i, h.time) {
      if h in w.log {
        BornLater(c, w.log, hit, i, h.time, h.time);
      } else {
        BornSame(c, w'.log, i, w'.birth, h.time);
      }
    }
  }

  lemma BornSame(c: Config, log: seq<Hit>, i: nat, time: int, later: int)
    requires BornBefore(c, log, i, time) && time <= later
    ensures BornBefore(c, log, i, later)
  {
  }

  lemma {:induction false} NoRequests(log: seq<Hit>, i: nat)
    requires forall h | h in log :: h.incarnation < i
    ensures Requests(log, i) == 0 && Admitted(log, i) == 0
  {
    if log != [] {
      NoRequests(log[..|log| - 1], i);
    }
  }

  lemma IncrCounted(c: Config, w: Window, time: int)
    requires Counted(c, w)
    ensures Counted(c, Incr(c, w, time))
  {
    var w' := Incr(c, w, time);
    assert w'.log[..|w'.log| - 1] == w.log;
    if !Live(w, time) {
      NoRequests(w.log, w.incarnation + 1);
    }
  }

  lemma IncrSpaced(c: Config, w: Window, time: int, now: int)
    requires Spaced(c, w, now) && now <= time
    ensures Spaced(c, Incr(c, w, time), time)
  {
  }

  ghost predicate Bounded(c: Config, w: Window, now: int) {
    Counted(c, w) && Spaced(c, w, now) && Founded(c, w)
  }

  lemma LaterIsSpaced(c: Config, w: Window, now: int, later: int)
    requires Spaced(c, w, now) && now <= later
    ensures Spaced(c, w, later)
  {
  }

  lemma ExpireBounded(c: Config, w: Window, time: int)
    requires Bounded(c, w, time)
    ensures Bounded(c, Expire(c, w, time), time)
  {
    assert forall i: nat, t: int :: BornBefore(c, Expire(c, w, time).log, i, t) <==> BornBefore(c, w.log, i, t);
  }

  ghost predicate BoundedAt(c: Config, r: Redis, key: string, now: int) {
    Bounded(c, At(r, key), now)
  }

  lemma HappenBounded(c: Config, r: Redis, e: Event, now: int, key: string)
    requires BoundedAt(c, r, key, now) && now <= e.time
    ensures BoundedAt(c, Happen(c, r, e), key, e.time)
  {
    LaterIsSpaced(c, At(r, key), now, e.time);
    if e.key == key {
      if e.Arrive? {
        IncrCounted(c, At(r, key), e.time);
        IncrSpaced(c, At(r, key), e.time, now);
        IncrFounded(c, At(r, key), e.time, now);
      } else {
        ExpireBounded(c, At(r, key), e.time);
      }
    }
  }

  lemma InOrderRest(events: seq<Event>, now: int)
    requires InOrder(events, now) && events != []
    ensures now <= events[0].time && InOrder(events[1..], events[0].time)
  {
  }

  lemma {:induction false} ReplayBounded(c: Config, r: Redis, events: seq<Event>, now: int, key: string)
    returns (later: int)
    requires BoundedAt(c, r, key, now) && InOrder(events, now)
    ensures BoundedAt(c, Replay(c, r, events), key, later)
    decreases events
  {
    if events == [] {
      return now;
    }
    InOrderRest(events, now);
    HappenBounded(c, r, events[0], now, key);
    later := ReplayBounded(c, Happen(c, r, events[0]), events[1..], events[0].time, key);
  }

  lemma NoKeyBounded(c: Config, now: int)
    ensures Bounded(c, NoKey, now)
  {
  }

  // -------------------------------------------------------------------------
  // The bounds
  // -------------------------------------------------------------------------

  /** In every trace each incarnation of each key admits exactly min(n, maxRequests) of its n
      requests. */
  lemma IncarnationAdmitsExactly(c: Config, events: seq<Event>, from: int, key: string, incarnation: nat)
    requires InOrder(events, from)
    ensures var log := At(Replay(c, map[], events), key).log;
            Admitted(log, incarnation) == Min(Requests(log, incarnation), c.maxRequests)
  {
    NoKeyBounded(c, from);
    var later := ReplayBounded(c, map[], events, from, key);
    var w := At(Replay(c, map[], events), key);
    if incarnation > w.incarnation {
      NoRequests(w.log, incarnation);
    }
  }

  /** The admitted hits of an interval, when they belong to two incarnations at most. */
  lemma {:induction false} TwoIncarnations(log: seq<Hit>, from: int, to: int, i: nat)
    requires forall h | h in log && Within(h, from, to) :: h.incarnation == i || h.incarnation == i + 1
    ensures AdmittedWithin(log, from, to) <= Admitted(log, i) + Admitted(log, i + 1)
  {
    if log != [] {
      TwoIncarnations(log[..|log| - 1], from, to, i);
    }
  }

  lemma FirstIncarnation(log: seq<Hit>, from: int, to: int) returns (i: nat)
    ensures forall h | h in log && Within(h, from, to) :: i <= h.incarnation
    ensures (forall h | h in log :: !Within(h, from, to))
            || exists h :: h in log && Within(h, from, to) && h.incarnation == i
  {
    if log == [] {
      return 0;
    }
    var init, last := log[..|log| - 1], log[|log| - 1];
    i := FirstIncarnation(init, from, to);
    var none := forall h | h in init :: !Within(h, from, to);
    if Within(last, from, to) && (none || last.incarnation < i) {
      i := last.incarnation;
    }
    assert forall h | h in log :: h in init || h == last;
    assert last in log && forall h | h in init :: h in log;
  }

  lemma SpacedPair(c: Config, w: Window, now: int, n: nat, m: nat)
    requires Spaced(c, w, now) && n < m < |w.log|
    ensures w.log[n].incarnation <= w.log[m].incarnation
    ensures w.log[n].incarnation + 2 <= w.log[m].incarnation ==> w.log[n].time + WindowMs(c) <= w.log[m].time
  {
  }

  lemma WindowSpansTwo(c: Config, w: Window, now: int, from: int, i: nat)
    requires Spaced(c, w, now)
    requires forall h | h in w.log && Within(h, from, from + WindowMs(c)) :: i <= h.incarnation
    requires exists h :: h in w.log && Within(h, from, from + WindowMs(c)) && h.incarnation == i
    ensures forall h | h in w.log && Within(h, from, from + WindowMs(c)) :: h.incarnation == i || h.incarnation == i + 1
  {
    var h0 :| h0 in w.log && Within(h0, from, from + WindowMs(c)) && h0.incarnation == i;
    forall h | h in w.log && Within(h, from, from + WindowMs(c)) ensures h.incarnation == i || h.incarnation == i + 1 {
      SpacedHits(c, w, now, h0, h);
    }
  }

  lemma SpacedHits(c: Config, w: Window, now: int, h: Hit, later: Hit)
    requires Spaced(c, w, now) && h in w.log && later in w.log
    ensures h.incarnation + 2 <= later.incarnation ==> h.time + WindowMs(c) <= later.time
  {
    var n :| 0 <= n < |w.log| && w.log[n] == h;
    var m :| 0 <= m < |w.log| && w.log[m] == later;
    if n < m {
      SpacedPair(c, w, now, n, m);
    } else if m < n {
      SpacedPair(c, w, now, m, n);
    }
  }

  lemma {:induction false} NothingWithin(log: seq<Hit>, from: int, to: int)
    requires forall h | h in log :: !Within(h, from, to)
    ensures AdmittedWithin(log, from, to) == 0
  {
    if log != [] {
      NothingWithin(log[..|log| - 1], from, to);
    }
  }

  /** ... and one admitted hit of the first of them lies outside the interval. */
  lemma {:induction false} OneOutside(log: seq<Hit>, from: int, to: int, i: nat, out: Hit)
    requires forall h | h in log && Within(h, from, to) :: h.incarnation == i || h.incarnation == i + 1
    requires out in log && out.incarnation == i && out.admitted && !Within(out, from, to)
    ensures AdmittedWithin(log, from, to) + 1 <= Admitted(log, i) + Admitted(log, i + 1)
  {
    var init, last := log[..|log| - 1], log[|log| - 1];
    if last == out {
      TwoIncarnations(init, from, to, i);
    } else {
      OneOutside(init, from, to, i, out);
    }
  }

  /** The admitted hits of an interval, when they all belong to one incarnation. */
  lemma {:induction false} OneIncarnation(log: seq<Hit>, from: int, to: int, i: nat)
    requires forall h | h in log && Within(h, from, to) :: h.incarnation == i
    ensures AdmittedWithin(log, from, to) <= Admitted(log, i)
  {
    if log != [] {
      OneIncarnation(log[..|log| - 1], from, to, i);
    }
  }

  function SharpBound(c: Config): nat {
    if c.maxRequests == 0 then 0 else 2 * c.maxRequests - 1
  }

  lemma IntervalBound(c: Config, w: Window, now: int, from: int)
    requires Bounded(c, w, now)
    ensures AdmittedWithin(w.log, from, from + WindowMs(c)) <= SharpBound(c)
  {
    var to := from + WindowMs(c);
    var i := FirstIncarnation(w.log, from, to);
    if forall h | h in w.log :: !Within(h, from, to) {
      NothingWithin(w.log, from, to);
      return;
    }
    WindowSpansTwo(c, w, now, from, i);
    AdmittedAtMost(c, w, i);
    AdmittedAtMost(c, w, i + 1);
    if h :| h in w.log && Within(h, from, to) && h.incarnation == i + 1 {
      assert BornBefore(c, w.log, i, h.time);
      var out :| out in w.log && out.incarnation == i && out.admitted == (1 <= c.maxRequests)
                 && out.time + WindowMs(c) <= h.time;
      if c.maxRequests == 0 {
        TwoIncarnations(w.log, from, to, i);
      } else {
        OneOutside(w.log, from, to, i, out);
      }
    } else {
      OneIncarnation(w.log, from, to, i);
    }
  }

  lemma AdmittedAtMost(c: Config, w: Window, i: nat)
    requires Counted(c, w)
    ensures Admitted(w.log, i) <= c.maxRequests
  {
    if i > w.incarnation {
      NoRequests(w.log, i);
    }
  }

  /** However long EXPIRE lags behind INCR, any half-open interval of one window length contains at
      most 2 * maxRequests - 1 admissions of a key. */
  lemma SlidingBound(c: Config, events: seq<Event>, start: int, key: string, from: int)
    requires InOrder(events, start)
    ensures AdmittedWithin(At(Replay(c, map[], events), key).log, from, from + WindowMs(c)) <= SharpBound(c)
  {
    NoKeyBounded(c, start);
    var later := ReplayBounded(c, map[], events, start, key);
    IntervalBound(c, At(Replay(c, map[], events), key), later, from);
  }

  /** n requests in one millisecond. */
  function Burst(key: string, time: int, n: nat): seq<Event> {
    if n == 0 then [] else Burst(key, time, n - 1) + [Arrive(key, time)]
  }

  /** A burst on a live key that stays within the limit is admitted whole. */
  lemma {:induction false} BurstAdmitted(c: Config, r: Redis, key: string, time: int, n: nat, from: int, to: int)
    requires Live(At(r, key), time) && At(r, key).counter.value.count + n <= c.maxRequests
    ensures var w, w' := At(r, key), At(Replay(c, r, Burst(key, time, n)), key);
            && w'.counter == Some(w.counter.value.(count := w.counter.value.count + n))
            && AdmittedWithin(w'.log, from, to)
               == AdmittedWithin(w.log, from, to) + if from <= time < to then n else 0
  {
    if n == 0 {
      assert Replay(c, r, []) == r;
    } else {
      BurstAdmitted(c, r, key, time, n - 1, from, to);
      var r1 := Replay(c, r, Burst(key, time, n - 1));
      ReplayLast(c, r, Burst(key, time, n - 1), Arrive(key, time));
      HitCounted(At(r1, key).log, Hit(time, At(r1, key).incarnation, true), from, to);
    }
  }

  lemma HitCounted(log: seq<Hit>, h: Hit, from: int, to: int)
    ensures AdmittedWithin(log + [h], from, to)
         == AdmittedWithin(log, from, to) + if Within(h, from, to) && h.admitted then 1 else 0
  {
    assert (log + [h])[..|log|] == log;
  }

  /** So is a burst that recreates an expired key. */
  lemma BurstRecreates(c: Config, r: Redis, key: string, time: int, from: int, to: int)
    requires !Live(At(r, key), time) && c.maxRequests >= 1 && from <= time < to
    ensures AdmittedWithin(At(Replay(c, r, Burst(key, time, c.maxRequests)), key).log, from, to)
         == AdmittedWithin(At(r, key).log, from, to) + c.maxRequests
  {
    var first := Arrive(key, time);
    var r1 := Happen(c, r, first);
    HitCounted(At(r, key).log, Hit(time, At(r, key).incarnation + 1, true), from, to);
    BurstAdmitted(c, r1, key, time, c.maxRequests - 1, from, to);
    BurstCons(key, time, c.maxRequests);
    assert ([first] + Burst(key, time, c.maxRequests - 1))[1..] == Burst(key, time, c.maxRequests - 1);
  }

  lemma {:induction false} BurstCons(key: string, time: int, n: nat)
    requires n >= 1
    ensures Burst(key, time, n) == [Arrive(key, time)] + Burst(key, time, n - 1)
  {
    if n > 1 {
      BurstCons(key, time, n - 1);
    }
  }

  lemma {:induction false} BurstTimes(key: string, time: int, n: nat)
    ensures forall e | e in Burst(key, time, n) :: e.time == time
  {
    if n > 0 {
      BurstTimes(key, time, n - 1);
    }
  }

  /** One request when the window opens, the rest of its quota in its last millisecond, and a whole
      quota in the next. */
  function WorstCase(c: Config, key: string): seq<Event>
    requires c.maxRequests >= 1
  {
    [Arrive(key, 0), SetExpiry(key, 0)]
    + Burst(key, WindowMs(c) - 1, c.maxRequests - 1)
    + Burst(key, WindowMs(c), c.maxRequests)
  }

  lemma Opening(c: Config, key: string)
    requires c.windowSeconds >= 1 && c.maxRequests >= 1
    ensures var w := At(Replay(c, map[], [Arrive(key, 0), SetExpiry(key, 0)]), key);
            w.counter == Some(Counter(1, Some(WindowMs(c)))) && w.log == [Hit(0, 1, true)]
  {
    var r1 := Happen(c, map[], Arrive(key, 0));
    var r2 := Happen(c, r1, SetExpiry(key, 0));
    ReplayLast(c, map[], [Arrive(key, 0)], SetExpiry(key, 0));
    ReplayLast(c, map[], [], Arrive(key, 0));
    assert [Arrive(key, 0)] + [SetExpiry(key, 0)] == [Arrive(key, 0), SetExpiry(key, 0)];
    assert [] + [Arrive(key, 0)] == [Arrive(key, 0)];
  }

  lemma WorstCaseInOrder(c: Config, key: string)
    requires c.windowSeconds >= 1 && c.maxRequests >= 1
    ensures InOrder(WorstCase(c, key), 0)
  {
    var early, late := Burst(key, WindowMs(c) - 1, c.maxRequests - 1), Burst(key, WindowMs(c), c.maxRequests);
    BurstTimes(key, WindowMs(c) - 1, c.maxRequests - 1);
    BurstTimes(key, WindowMs(c), c.maxRequests);
    assert forall k | 0 <= k < |early| :: early[k].time == WindowMs(c) - 1;
    assert forall k | 0 <= k < |late| :: late[k].time == WindowMs(c);
  }

  /** After the opening and the rest of the quota, the key is at its limit, and expires. */
  lemma EarlyPart(c: Config, key: string) returns (r: Redis)
    requires c.windowSeconds >= 1 && c.maxRequests >= 1
    ensures r == Replay(c, map[], [Arrive(key, 0), SetExpiry(key, 0)] + Burst(key, WindowMs(c) - 1, c.maxRequests - 1))
    ensures !Live(At(r, key), WindowMs(c))
    ensures AdmittedWithin(At(r, key).log, 1, 1 + WindowMs(c)) == c.maxRequests - 1
  {
    var opening, early := [Arrive(key, 0), SetExpiry(key, 0)], Burst(key, WindowMs(c) - 1, c.maxRequests - 1);
    Opening(c, key);
    OpeningCounts(1 + WindowMs(c));
    BurstAdmitted(c, Replay(c, map[], opening), key, WindowMs(c) - 1, c.maxRequests - 1, 1, 1 + WindowMs(c));
    ReplayAppend(c, map[], opening, early);
    r := Replay(c, Replay(c, map[], opening), early);
  }

  lemma OpeningCounts(to: int)
    ensures AdmittedWithin([Hit(0, 1, true)], 1, to) == 0
  {
    NothingWithin([Hit(0, 1, true)], 1, to);
  }

  lemma WorstCaseReplay(c: Config, key: string, r: Redis)
    requires c.maxRequests >= 1
    requires r == Replay(c, map[], [Arrive(key, 0), SetExpiry(key, 0)] + Burst(key, WindowMs(c) - 1, c.maxRequests - 1))
    ensures Replay(c, map[], WorstCase(c, key)) == Replay(c, r, Burst(key, WindowMs(c), c.maxRequests))
  {
    ReplayAppend(c, map[], [Arrive(key, 0), SetExpiry(key, 0)] + Burst(key, WindowMs(c) - 1, c.maxRequests - 1),
      Burst(key, WindowMs(c), c.maxRequests));
  }

  /** Every limit attains its bound. */
  lemma BoundIsReached(c: Config, key: string)
    requires c.windowSeconds >= 1 && c.maxRequests >= 1
    ensures InOrder(WorstCase(c, key), 0)
    ensures AdmittedWithin(At(Replay(c, map[], WorstCase(c, key)), key).log, 1, 1 + WindowMs(c)) == SharpBound(c)
  {
    WorstCaseInOrder(c, key);
    var r := EarlyPart(c, key);
    BurstRecreates(c, r, key, WindowMs(c), 1, 1 + WindowMs(c));
    WorstCaseReplay(c, key, r);
  }

  /** Some trace of a key has an interval of one window length with more than maxRequests admissions. */
  ghost predicate Overruns(c: Config, events: seq<Event>, start: int, key: string, from: int) {
    InOrder(events, start)
    && AdmittedWithin(At(Replay(c, map[], events), key).log, from, from + WindowMs(c)) > c.maxRequests
  }

  /** "At most maxRequests inside a window" holds of every interval of one window length exactly for
      limits of at most 1, and for empty windows. */
  lemma LimitHoldsOfAllIntervals(c: Config)
    ensures (forall events, start, key, from :: !Overruns(c, events, start, key, from))
       <==> c.windowSeconds == 0 || c.maxRequests <= 1
  {
    if c.windowSeconds == 0 || c.maxRequests <= 1 {
      forall events, start, key, from ensures !Overruns(c, events, start, key, from) {
        if InOrder(events, start) {
          SlidingBound(c, events, start, key, from);
          if c.windowSeconds == 0 {
            NothingWithin(At(Replay(c, map[], events), key).log, from, from);
          }
        }
      }
    } else {
      BoundIsReached(c, "");
      assert Overruns(c, WorstCase(c, ""), 0, "", 1);
    }
  }

  // -------------------------------------------------------------------------
  // When a window ends
  // -------------------------------------------------------------------------

  /** A key that its creator has not given an expiry. */
  predicate Unlimited(w: Window) {
    w.counter.Some? && w.counter.value.expiresAt.None?
  }

  /** Only the request that created a key sends EXPIRE, once, so it finds a key without an expiry. */
  predicate Proper(r: Redis, e: Event) {
    e.SetExpiry? ==> Unlimited(At(r, e.key))
  }

  predicate Orderly(c: Config, r: Redis, events: seq<Event>)
    decreases events
  {
    events == [] || (Proper(r, events[0]) && Orderly(c, Happen(c, r, events[0]), events[1..]))
  }

  lemma {:induction false} OrderlyLast(c: Config, r: Redis, events: seq<Event>, e: Event)
    requires Orderly(c, r, events) && Proper(Replay(c, r, events), e)
    ensures Orderly(c, r, events + [e])
    decreases events
  {
    if events == [] {
      assert Orderly(c, Happen(c, r, e), []);
    } else {
      OrderlyLast(c, Happen(c, r, events[0]), events[1..], e);
      assert (events + [e])[1..] == events[1..] + [e];
    }
  }

  /** Nobody sends the request that would meet an expired key before time `until`. */
  predicate QuietFrom(events: seq<Event>, key: string, until: int) {
    forall e | e in events && e.Arrive? && e.key == key :: e.time < until
  }

  lemma {:induction false} ExpiryStays(c: Config, r: Redis, events: seq<Event>, key: string, expiry: int)
    requires Orderly(c, r, events) && QuietFrom(events, key, expiry)
    requires At(r, key).counter.Some? && At(r, key).counter.value.expiresAt == Some(expiry)
    ensures var w, w' := At(r, key), At(Replay(c, r, events), key);
            && w'.counter.Some? && w'.counter.value.expiresAt == Some(expiry)
            && w'.incarnation == w.incarnation && w.log <= w'.log
    decreases events
  {
    if events != [] {
      assert events[0] in events;
      ExpiryStays(c, Happen(c, r, events[0]), events[1..], key, expiry);
    }
  }

  /** Once a key has an expiry, nothing puts it off: the first request from then on opens a new
      window, and is let through unless nothing ever is. */
  lemma NextWindowOpens(c: Config, r: Redis, events: seq<Event>, key: string, expiry: int, time: int)
    requires Orderly(c, r, events) && QuietFrom(events, key, expiry) && time >= expiry
    requires At(r, key).counter.Some? && At(r, key).counter.value.expiresAt == Some(expiry)
    ensures var w, w' := At(Replay(c, r, events), key), At(Replay(c, r, events + [Arrive(key, time)]), key);
            && w'.log == w.log + [Hit(time, At(r, key).incarnation + 1, c.maxRequests >= 1)]
            && w'.counter == Some(Counter(1, None))
  {
    ExpiryStays(c, r, events, key, expiry);
    ReplayLast(c, r, events, Arrive(key, time));
  }

  /** Whatever happens from r on, as long as no EXPIRE is sent for the key, its next request is
      refused. */
  ghost predicate LockedOut(c: Config, r: Redis, key: string, now: int) {
    forall events: seq<Event>, time: int ::
      InOrder(events + [Arrive(key, time)], now) && (forall e | e in events && e.key == key :: e.Arrive?)
      ==> RefusedAt(c, r, events, key, time)
  }

  predicate RefusedAt(c: Config, r: Redis, events: seq<Event>, key: string, time: int) {
    !Admits(c, At(Replay(c, r, events), key), time)
  }

  /** A request at this time would be let through. */
  predicate Admits(c: Config, w: Window, time: int) {
    c.maxRequests >= 1 && (Live(w, time) ==> w.counter.value.count < c.maxRequests)
  }

  lemma AdmitsNext(c: Config, w: Window, time: int)
    ensures Incr(c, w, time).log == w.log + [Hit(time, Incr(c, w, time).incarnation, Admits(c, w, time))]
  {
  }

  lemma {:induction false} StaysFull(c: Config, r: Redis, events: seq<Event>, key: string)
    requires Unlimited(At(r, key)) && At(r, key).counter.value.count >= c.maxRequests
    requires forall e | e in events && e.key == key :: e.Arrive?
    ensures var w := At(Replay(c, r, events), key); Unlimited(w) && w.counter.value.count >= c.maxRequests
    decreases events
  {
    if events != [] {
      assert events[0] in events;
      StaysFull(c, Happen(c, r, events[0]), events[1..], key);
    }
  }

  /** If the EXPIRE of the request that created a key is never sent, because its process dies after
      INCR or the command fails, the key's user is refused for ever exactly if the quota is spent and
      the key has no expiry, or nothing is ever let through. */
  lemma LockedOutExactly(c: Config, r: Redis, key: string, now: int)
    ensures LockedOut(c, r, key, now)
       <==> c.maxRequests == 0 || (Unlimited(At(r, key)) && At(r, key).counter.value.count >= c.maxRequests)
  {
    if c.maxRequests == 0 || (Unlimited(At(r, key)) && At(r, key).counter.value.count >= c.maxRequests) {
      forall events: seq<Event>, time: int |
        InOrder(events + [Arrive(key, time)], now) && (forall e | e in events && e.key == key :: e.Arrive?)
        ensures RefusedAt(c, r, events, key, time)
      {
        if c.maxRequests > 0 {
          StaysFull(c, r, events, key);
        }
      }
    } else {
      var w := At(r, key);
      var time := if w.counter.Some? && w.counter.value.expiresAt.Some? then Max(now, w.counter.value.expiresAt.value)
                  else now;
      assert InOrder([] + [Arrive(key, time)], now);
      assert !RefusedAt(c, r, [], key, time);
    }
  }

  // -------------------------------------------------------------------------
  // The middleware
  // -------------------------------------------------------------------------

  lemma {:induction false} ReplayAppend(c: Config, r: Redis, first: seq<Event>, second: seq<Event>)
    ensures Replay(c, r, first + second) == Replay(c, Replay(c, r, first), second)
    decreases first
  {
    if first == [] {
      assert first + second == second;
    } else {
      assert (first + second)[1..] == first[1..] + second;
      ReplayAppend(c, Happen(c, r, first[0]), first[1..], second);
    }
  }

  lemma ReplayLast(c: Config, r: Redis, events: seq<Event>, e: Event)
    ensures Replay(c, r, events + [e]) == Happen(c, Replay(c, r, events), e)
  {
    ReplayAppend(c, r, events, [e]);
    var r' := Replay(c, r, events);
    assert Replay(c, r', [e]) == Replay(c, Happen(c, r', e), []);
  }

  /** The hit a request made, as the trace up to and including its INCR tells it. */
  function OwnHit(c: Config, trace: seq<Event>): Option<Hit>
    requires trace != [] && trace[|trace| - 1].Arrive?
  {
    var log := At(Replay(c, map[], trace), trace[|trace| - 1].key).log;
    if log == [] then None else Some(log[|log| - 1])
  }

  /** How many requests its incarnation counts by then. */
  function OwnCount(c: Config, trace: seq<Event>): nat
    requires trace != [] && trace[|trace| - 1].Arrive?
    requires OwnHit(c, trace).Some?
  {
    Requests(At(Replay(c, map[], trace), trace[|trace| - 1].key).log, OwnHit(c, trace).value.incarnation)
  }

  lemma OwnCountIs(c: Config, trace: seq<Event>)
    requires InOrder(trace, 0) && trace != [] && trace[|trace| - 1].Arrive?
    ensures var w := At(Replay(c, map[], trace), trace[|trace| - 1].key);
            && w.counter.Some? && OwnHit(c, trace).Some?
            && OwnHit(c, trace).value.time == trace[|trace| - 1].time
            && OwnHit(c, trace).value.incarnation == w.incarnation
            && OwnCount(c, trace) == w.counter.value.count
            && OwnHit(c, trace).value.admitted == (w.counter.value.count <= c.maxRequests)
            && (w.counter.value.count == 1 ==> Unlimited(w))
  {
    var init, last := trace[..|trace| - 1], trace[|trace| - 1];
    assert trace == init + [last];
    ReplayLast(c, map[], init, last);
    NoKeyBounded(c, 0);
    var later := ReplayBounded(c, map[], trace, 0, last.key);
    var before := ReplayBounded(c, map[], init, 0, last.key);
    CountPositive(c, At(Replay(c, map[], init), last.key));
  }

  /** A key that exists has been counted at least once. */
  lemma CountPositive(c: Config, w: Window)
    requires Counted(c, w) && Founded(c, w)
    ensures w.counter.Some? ==> w.counter.value.count >= 1
  {
    if w.counter.Some? {
      var h :| h in w.log && h.incarnation == w.incarnation;
      SomeRequest(w.log, h);
    }
  }

  lemma {:induction false} SomeRequest(log: seq<Hit>, h: Hit)
    requires h in log
    ensures Requests(log, h.incarnation) >= 1
  {
    if log[|log| - 1] != h {
      SomeRequest(log[..|log| - 1], h);
    }
  }

  /** What time and other requests can do to a key: its incarnation may end, but an expiry once set
      stays with it. */
  predicate Ages(w: Window, later: Window) {
    && w.incarnation <= later.incarnation
    && (w.counter.Some? && w.incarnation == later.incarnation ==>
          && later.counter.Some?
          && (w.counter.value.expiresAt.Some? ==> later.counter.value.expiresAt == w.counter.value.expiresAt))
  }

  ghost predicate AllAge(r: Redis, later: Redis) {
    forall k: string :: Ages(At(r, k), At(later, k))
  }

  /** The EXPIRE for this key, if any, is still to come. */
  predicate StillOwed(r: Redis, later: Redis, owed: Option<string>) {
    owed.Some? ==>
      && Unlimited(At(later, owed.value)) && At(later, owed.value).incarnation == At(r, owed.value).incarnation
  }

  lemma AgeFurther(c: Config, start: Redis, r: Redis, e: Event, owed: Option<string>)
    requires AllAge(start, r) && StillOwed(start, r, owed) && Proper(r, e)
    requires e.SetExpiry? ==> owed != Some(e.key)
    ensures AllAge(start, Happen(c, r, e)) && StillOwed(start, Happen(c, r, e), owed)
  {
    forall k: string ensures Ages(At(start, k), At(Happen(c, r, e), k)) {
      assert Ages(At(start, k), At(r, k));
    }
  }

  /** One Redis, up, shared by all requests; `trace` is everything it has been sent, and `mine` what
      it has been sent by the requests served here. */
  class Limiter {
    const config: Config
    var redis: Redis
    var now: int
    ghost var trace: seq<Event>
    ghost var mine: seq<Event>

    ghost predicate Valid()
      reads this
    {
      && redis == Replay(config, map[], trace) && Orderly(config, map[], trace)
      && InOrder(trace, 0) && now >= 0 && forall e | e in trace :: e.time <= now
    }

    constructor (config: Config)
      ensures Valid() && this.config == config && trace == mine == []
    {
      this.config := config;
      redis, now, trace, mine := map[], 0, [], [];
    }

    /** One command. */
    method Send(e: Event)
      requires Valid() && e.time == now && Proper(redis, e)
      modifies this`redis, this`trace
      ensures Valid() && trace == old(trace) + [e] && redis == Happen(config, old(redis), e)
    {
      ReplayLast(config, map[], trace, e);
      OrderlyLast(config, map[], trace, e);
      redis, trace := Happen(config, redis, e), trace + [e];
    }

    /** What other requests do, and how time passes, while one request awaits a reply. Only the
        request that created a key sends its EXPIRE, so nobody else does for the key it owes one. */
    method Await(owed: Option<string>)
      requires Valid()
      requires owed.Some? ==> Unlimited(At(redis, owed.value))
      modifies this`redis, this`now, this`trace
      ensures Valid() && now >= old(now) && old(trace) <= trace
      ensures AllAge(old(redis), redis) && StillOwed(old(redis), redis, owed)
    {
      var n: int :| n >= 0;
      for i := 0 to n
        invariant Valid() && now >= old(now) && old(trace) <= trace
        invariant AllAge(old(redis), redis) && StillOwed(old(redis), redis, owed)
      {
        var key: string, wait: int, arrives: bool := *, *, *;
        now := now + if wait > 0 then wait else 0;
        var e := if arrives then Arrive(key, now) else SetExpiry(key, now);
        if Proper(redis, e) && (arrives || owed != Some(key)) {
          AgeFurther(config, old(redis), redis, e, owed);
          Send(e);
        }
      }
    }

    /** The INCR of one request: the reply is the request's number in its window. */
    method Count(key: string) returns (count: nat)
      requires Valid()
      modifies this`redis, this`trace, this`mine
      ensures Valid() && trace == old(trace) + [Arrive(key, now)] && mine == old(mine) + [Arrive(key, now)]
      ensures OwnHit(config, trace).Some? && OwnCount(config, trace) == count
      ensures var hit := OwnHit(config, trace).value;
              && hit.time == now && hit.incarnation == At(redis, key).incarnation
              && hit.admitted == (count <= config.maxRequests)
      ensures count == 1 ==> Unlimited(At(redis, key))
    {
      Send(Arrive(key, now));
      mine := mine + [Arrive(key, now)];
      OwnCountIs(config, trace);
      count := redis[key].counter.value.count;
    }

    /** The EXPIRE of the request that created the key: its window ends one window length from now. */
    method StartWindow(key: string)
      requires Valid() && Unlimited(At(redis, key))
      modifies this
      ensures Valid() && now >= old(now) && old(trace) <= trace && mine == old(mine) + [SetExpiry(key, now)]
      ensures var w := At(redis, key);
              && w.incarnation == old(At(redis, key)).incarnation
              && w.counter.Some? && w.counter.value.expiresAt == Some(now + WindowMs(config))
    {
      Await(Some(key));
      Send(SetExpiry(key, now));
      mine := mine + [SetExpiry(key, now)];
    }

    /** rateLimitMiddleware for one request. Whatever the others do between its commands, it is let
        through exactly if it is one of the first maxRequests of its window; if not, it is told to
        come back after the rest of the window, or after a whole one. If it is the very first, it
        also sends EXPIRE, and by the time it is served its window is over or ends one window length
        after that. */
    method RateLimit(key: string)
      returns (admitted: bool, retryAfter: int, ghost upToMine: seq<Event>, ghost started: Option<int>)
      requires Valid()
      modifies this
      ensures Valid() && old(trace) < upToMine <= trace
      ensures upToMine[|upToMine| - 1].Arrive? && upToMine[|upToMine| - 1].key == key
      ensures OwnHit(config, upToMine).Some? && admitted == OwnHit(config, upToMine).value.admitted
      ensures admitted <==> OwnCount(config, upToMine) <= config.maxRequests
      ensures mine == old(mine) + [upToMine[|upToMine| - 1]]
                      + if started.Some? then [SetExpiry(key, started.value)] else []
      ensures started.Some? <==> OwnCount(config, upToMine) == 1
      ensures started.Some? ==>
                var hit, w := OwnHit(config, upToMine).value, At(redis, key);
                && old(now) <= hit.time <= started.value <= now
                && (|| hit.incarnation < w.incarnation
                    || (hit.incarnation == w.incarnation && w.counter.Some?
                        && w.counter.value.expiresAt == Some(started.value + 1000 * config.windowSeconds)))
      ensures !admitted ==> retryAfter == RetryAfter(config, At(redis, key), now)
    {
      Await(None);
      var count := Count(key);
      upToMine, started := trace, None;
      if count == 1 {
        StartWindow(key);
        started := Some(now);
      }
      admitted := count <= config.maxRequests;
      retryAfter := 0;
      if !admitted {
        ghost var before := redis;
        Await(None);
        assert Ages(At(before, key), At(redis, key));
        retryAfter := RetryAfter(config, At(redis, key), now);
      }
    }

    /** What the trace lemmas say of the counters as they stand. */
    lemma NeverOverdrawn(key: string, from: int)
      requires Valid()
      ensures AdmittedWithin(At(redis, key).log, from, from + WindowMs(config)) <= SharpBound(config)
    {
      SlidingBound(config, trace, 0, key, from);
    }
  }
}
