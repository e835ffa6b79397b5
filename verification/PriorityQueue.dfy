/** Popping the scored set is popping a queue ordered by (priority, push time, id), as long as the
    scores are exact (src/queue/queue.js, src/queue/claim.js). */
module PriorityQueue {
  import opened Jobs
  import opened Queue

  // -------------------------------------------------------------------------
  // Exact scores
  // -------------------------------------------------------------------------

  predicate Exact(n: int) {
    -TWO_53 <= n <= TWO_53
  }

  /** A job's place in line: its priority and the time it was pushed. */
  datatype Key = Key(priority: int, pushedAt: int)

  function Score(k: Key): int {
    k.priority * PRIORITY_WEIGHT + k.pushedAt
  }

  predicate ExactKey(k: Key) {
    Exact(k.priority * PRIORITY_WEIGHT) && Exact(Score(k))
  }

  lemma ExactIsKept(n: int)
    requires Exact(n)
    ensures ToDouble(n) == n
  {
    assert Spacing(Abs(n)) == 1;
  }

  lemma ExactScore(k: Key)
    requires ExactKey(k)
    ensures ComputeScore(k.priority, k.pushedAt) == Score(k)
  {
    ExactIsKept(k.priority * PRIORITY_WEIGHT);
    ExactIsKept(Score(k));
  }

  /** Priorities 0 to 9000 are exact for every push time up to the year 2190. */
  lemma PresentDayIsExact(k: Key)
    requires 0 <= k.priority <= 9000 && 0 <= k.pushedAt <= 7_000_000_000_000
    ensures ExactKey(k)
  {
  }

  lemma SpacingTwo(n: nat)
    requires TWO_53 < n <= 2 * TWO_53
    ensures Spacing(n) == 2
  {
    assert Spacing(n, 2) == 2;
  }

  lemma SpacingFour(n: nat)
    requires 2 * TWO_53 < n <= 4 * TWO_53
    ensures Spacing(n) == 4
  {
    assert Spacing(n, 4) == 4;
    assert Spacing(n, 2) == 4;
  }

  // -------------------------------------------------------------------------
  // Where scores stop telling milliseconds apart
  // -------------------------------------------------------------------------

  /** Spacings grow by doubling. */
  lemma {:induction false} SpacingGrows(n: nat, m: nat, u: nat)
    requires u >= 1 && n <= m <= 2 * n
    ensures Spacing(m, u) == Spacing(n, u) || Spacing(m, u) == 2 * Spacing(n, u)
    decreases m - u
  {
    if n > TWO_53 * u {
      SpacingGrows(n, m, 2 * u);
    } else if m > TWO_53 * u {
      assert Spacing(m, 2 * u) == 2 * u;
    }
  }

  ghost predicate IsMultiple(x: int, u: nat) {
    exists q :: x == q * u
  }

  lemma RoundsNear(n: int)
    ensures IsMultiple(ToDouble(n), Spacing(Abs(n)))
    ensures 2 * Abs(ToDouble(n) - n) <= Spacing(Abs(n))
  {
    var u := Spacing(Abs(n));
    var q, r := n / u, n % u;
    var up := q + 1;
    assert n == q * u + r && up * u == q * u + u;
    if 2 * r < u || (2 * r == u && q % 2 == 0) {
      assert ToDouble(n) == q * u;
    } else {
      assert ToDouble(n) == up * u;
    }
  }

  lemma StrictMultiples(x: int, y: int, u: nat)
    requires u >= 1 && IsMultiple(x, u) && IsMultiple(y, u) && x < y
    ensures x + u <= y
  {
    var q :| x == q * u;
    var p :| y == p * u;
    var gap := p - q;
    assert y - x == gap * u;
    assert gap >= 1;
  }

  lemma MultipleOfTwice(x: int, u: nat)
    requires IsMultiple(x, 2 * u)
    ensures IsMultiple(x, u)
  {
    var q :| x == q * (2 * u);
    var twice := 2 * q;
    assert x == twice * u;
  }

  /** A rounded number is a multiple of its own spacing and of any it doubles. */
  lemma RoundedMultiple(n: int, u: nat)
    requires u >= 1 && (Spacing(Abs(n)) == u || Spacing(Abs(n)) == 2 * u)
    ensures IsMultiple(ToDouble(n), u)
  {
    RoundsNear(n);
    if Spacing(Abs(n)) == 2 * u {
      MultipleOfTwice(ToDouble(n), u);
    }
  }

  /** Four different doubles span three spacings, more than four integers can round to. */
  lemma WideSpacing(b: int, u: nat)
    requires u >= 2
    requires forall k | b <= k <= b + 3 :: Spacing(Abs(k)) == u || Spacing(Abs(k)) == 2 * u
    requires u > 2 || forall k | b <= k <= b + 3 :: Spacing(Abs(k)) == u
    requires Spacing(Abs(b)) == u || Spacing(Abs(b + 3)) == u
    ensures exists k | b <= k <= b + 2 :: ToDouble(k) >= ToDouble(k + 1)
  {
    if forall k | b <= k <= b + 2 :: ToDouble(k) < ToDouble(k + 1) {
      RoundedMultiple(b, u);
      RoundedMultiple(b + 1, u);
      RoundedMultiple(b + 2, u);
      RoundedMultiple(b + 3, u);
      StrictMultiples(ToDouble(b), ToDouble(b + 1), u);
      StrictMultiples(ToDouble(b + 1), ToDouble(b + 2), u);
      StrictMultiples(ToDouble(b + 2), ToDouble(b + 3), u);
      RoundsNear(b);
      RoundsNear(b + 3);
    }
  }

  lemma TieAtBoundary(b: int, k: int)
    requires k in {TWO_53, 2 * TWO_53, -TWO_53 - 1, -2 * TWO_53 - 1} && b <= k <= b + 2
    ensures exists k | b <= k <= b + 2 :: ToDouble(k) >= ToDouble(k + 1)
  {
    ExactIsKept(TWO_53);
    ExactIsKept(-TWO_53);
    SpacingTwo(TWO_53 + 1);
    SpacingTwo(2 * TWO_53);
    SpacingFour(2 * TWO_53 + 1);
    assert ToDouble(k) >= ToDouble(k + 1);
  }

  lemma TieAbove(b: int)
    requires b + 3 > TWO_53
    ensures exists k | b <= k <= b + 2 :: ToDouble(k) >= ToDouble(k + 1)
  {
    if b <= TWO_53 {
      TieAtBoundary(b, TWO_53);
    } else if b <= 2 * TWO_53 < b + 3 {
      TieAtBoundary(b, 2 * TWO_53);
    } else {
      forall k | b <= k <= b + 3 ensures Spacing(k) == Spacing(b) || Spacing(k) == 2 * Spacing(b) {
        SpacingGrows(b, k, 1);
      }
      if b + 3 <= 2 * TWO_53 {
        forall k | b <= k <= b + 3 ensures Spacing(k) == 2 {
          SpacingTwo(k);
        }
      } else {
        SpacingAtLeastFour(b);
      }
      WideSpacing(b, Spacing(b));
    }
  }

  lemma SpacingAtLeastFour(n: nat)
    requires n > 2 * TWO_53
    ensures Spacing(n) >= 4
  {
    assert Spacing(n) == Spacing(n, 2) == Spacing(n, 4);
  }

  lemma TieBelow(b: int)
    requires b < -TWO_53
    ensures exists k | b <= k <= b + 2 :: ToDouble(k) >= ToDouble(k + 1)
  {
    var top := b + 3;
    if top >= -TWO_53 {
      TieAtBoundary(b, -TWO_53 - 1);
    } else if b < -2 * TWO_53 <= top {
      TieAtBoundary(b, -2 * TWO_53 - 1);
    } else {
      forall k | b <= k <= top ensures Spacing(Abs(k)) == Spacing(-top) || Spacing(Abs(k)) == 2 * Spacing(-top) {
        SpacingGrows(-top, -k, 1);
      }
      if b >= -2 * TWO_53 {
        forall k | b <= k <= top ensures Spacing(Abs(k)) == 2 {
          SpacingTwo(-k);
        }
      } else {
        SpacingAtLeastFour(-top);
      }
      WideSpacing(b, Spacing(-top));
    }
  }

  predicate Strict(b: int) {
    forall k | b <= k <= b + 2 :: ToDouble(k) < ToDouble(k + 1)
  }

  lemma StrictExactly(b: int)
    ensures Strict(b) <==> Exact(b) && Exact(b + 3)
  {
    if Exact(b) && Exact(b + 3) {
      forall k | b <= k <= b + 2 ensures ToDouble(k) < ToDouble(k + 1) {
        ExactIsKept(k);
        ExactIsKept(k + 1);
      }
    } else if b + 3 > TWO_53 {
      TieAbove(b);
    } else {
      TieBelow(b);
    }
  }

  predicate Increasing(priority: int, time: int) {
    forall t | time <= t <= time + 2 :: ComputeScore(priority, t) < ComputeScore(priority, t + 1)
  }

  lemma IncreasingIsStrict(priority: int, time: int, base: int)
    requires base == ToDouble(priority * PRIORITY_WEIGHT)
    ensures Increasing(priority, time) <==> Strict(base + time)
  {
    assert forall t :: ComputeScore(priority, t) == ToDouble(base + t);
    if Increasing(priority, time) {
      forall k | base + time <= k <= base + time + 2 ensures ToDouble(k) < ToDouble(k + 1) {
        assert ComputeScore(priority, k - base) < ComputeScore(priority, k - base + 1);
      }
    }
    if Strict(base + time) {
      forall t | time <= t <= time + 2 ensures ComputeScore(priority, t) < ComputeScore(priority, t + 1) {
        assert ToDouble(base + t) < ToDouble(base + t + 1);
      }
    }
  }

  /** Scores of one priority tell four consecutive milliseconds apart if and only if all four lie
      within 2^53; beyond, first come need not be first served. */
  lemma FifoExactly(priority: int, time: int)
    ensures var base := ToDouble(priority * PRIORITY_WEIGHT);
            && (Exact(priority * PRIORITY_WEIGHT) ==> base == priority * PRIORITY_WEIGHT)
            && (Increasing(priority, time) <==> Exact(base + time) && Exact(base + time + 3))
  {
    var base := ToDouble(priority * PRIORITY_WEIGHT);
    if Exact(priority * PRIORITY_WEIGHT) {
      ExactIsKept(priority * PRIORITY_WEIGHT);
    }
    IncreasingIsStrict(priority, time, base);
    StrictExactly(base + time);
  }

  /** With priority 9006 and a timestamp of late 2023 this happens for the jobs of one millisecond
      and the next. */
  lemma TieAtPriority9006()
    ensures ComputeScore(9006, 1_700_000_000_000) == ComputeScore(9006, 1_700_000_000_001)
    ensures !ExactKey(Key(9006, 1_700_000_000_000))
  {
    ExactIsKept(9006 * PRIORITY_WEIGHT);
    SpacingTwo(9006 * PRIORITY_WEIGHT + 1_700_000_000_000);
    SpacingTwo(9006 * PRIORITY_WEIGHT + 1_700_000_000_001);
  }

  // -------------------------------------------------------------------------
  // The order of keys
  // -------------------------------------------------------------------------

  predicate Earlier(k: Key, l: Key) {
    k.priority < l.priority || (k.priority == l.priority && k.pushedAt < l.pushedAt)
  }

  /** The more urgent job was not pushed so much later that its priority is outweighed. */
  predicate Compatible(k: Key, l: Key) {
    && (k.priority < l.priority ==> k.pushedAt - l.pushedAt < (l.priority - k.priority) * PRIORITY_WEIGHT)
    && (l.priority < k.priority ==> l.pushedAt - k.pushedAt < (k.priority - l.priority) * PRIORITY_WEIGHT)
  }

  /** Priority dominates push time exactly as long as the more urgent job is less than 1e12 ms a
      priority later. */
  lemma PriorityDominates(k: Key, l: Key)
    requires ExactKey(k) && ExactKey(l) && k.priority < l.priority
    ensures ComputeScore(k.priority, k.pushedAt) < ComputeScore(l.priority, l.pushedAt)
       <==> k.pushedAt - l.pushedAt < (l.priority - k.priority) * PRIORITY_WEIGHT
  {
    ExactScore(k);
    ExactScore(l);
  }

  /** Scores order two jobs by priority and push time if and only if the jobs are compatible. */
  lemma ScoreOrder(k: Key, l: Key)
    requires ExactKey(k) && ExactKey(l)
    ensures var x, y := ComputeScore(k.priority, k.pushedAt), ComputeScore(l.priority, l.pushedAt);
            (x < y <==> Earlier(k, l)) && (y < x <==> Earlier(l, k)) <==> Compatible(k, l)
  {
    ExactScore(k);
    ExactScore(l);
    if k.priority < l.priority {
      PriorityDominates(k, l);
    } else if l.priority < k.priority {
      PriorityDominates(l, k);
    }
  }

  /** Push times less than 1e12 ms apart are compatible whatever the priorities. */
  lemma CloseIsCompatible(k: Key, l: Key)
    requires Abs(k.pushedAt - l.pushedAt) < PRIORITY_WEIGHT
    ensures Compatible(k, l)
  {
  }

  // -------------------------------------------------------------------------
  // The abstract queue
  // -------------------------------------------------------------------------

  type Line = map<JobId, Key>

  predicate Ahead(q: Line, j: JobId, k: JobId) {
    j in q && k in q && (Earlier(q[j], q[k]) || (q[j] == q[k] && j < k))
  }

  predicate First(q: Line, j: JobId) {
    j in q && forall k | k in q && k != j :: Ahead(q, j, k)
  }

  predicate Orderly(q: Line) {
    && (forall j | j in q :: ExactKey(q[j]))
    && (forall j, k | j in q && k in q :: Compatible(q[j], q[k]))
  }

  /** The sorted set z stores the line q. */
  predicate Stores(z: ZSet, q: Line) {
    z.Keys == q.Keys && forall j | j in q :: z[j] == ComputeScore(q[j].priority, q[j].pushedAt)
  }

  /** The scores of z are in the order of the keys of q. */
  predicate SameOrder(z: ZSet, q: Line) {
    && z.Keys == q.Keys
    && forall j, k | j in q && k in q ::
         (z[j] < z[k] <==> Earlier(q[j], q[k])) && (z[j] == z[k] <==> q[j] == q[k])
  }

  lemma StoredInOrder(z: ZSet, q: Line)
    requires Stores(z, q) && Orderly(q)
    ensures SameOrder(z, q)
  {
    forall j, k | j in q && k in q
      ensures (z[j] < z[k] <==> Earlier(q[j], q[k])) && (z[j] == z[k] <==> q[j] == q[k])
    {
      ScoreOrder(q[j], q[k]);
    }
  }

  /** BZPOPMIN takes the first in line, and there is only one first. */
  lemma PopIsFirst(z: ZSet, q: Line)
    requires SameOrder(z, q) && z != map[]
    ensures First(q, MinMember(z)) && forall j | First(q, j) :: j == MinMember(z)
    ensures SameOrder(z - {MinMember(z)}, q - {MinMember(z)})
  {
    var m := MinMember(z);
    forall k | k in q && k != m ensures Ahead(q, m, k) {
      assert Before(z, m, k);
    }
  }

  lemma PushStores(z: ZSet, q: Line, j: JobId, key: Key)
    requires Stores(z, q)
    ensures Stores(z[j := ComputeScore(key.priority, key.pushedAt)], q[j := key])
  {
  }

  lemma RemoveStores(z: ZSet, q: Line, j: JobId)
    requires Stores(z, q)
    ensures Stores(z - {j}, q - {j})
  {
  }

  lemma PushKeepsLine(z: ZSet, q: Line, j: JobId, key: Key)
    requires Stores(z, q) && Orderly(q) && ExactKey(key) && forall k | k in q :: Compatible(q[k], key)
    ensures Stores(z[j := ComputeScore(key.priority, key.pushedAt)], q[j := key]) && Orderly(q[j := key])
  {
    PushStores(z, q, j, key);
    PushOrderly(q, j, key);
  }

  lemma PushOrderly(q: Line, j: JobId, key: Key)
    requires Orderly(q) && ExactKey(key) && forall k | k in q :: Compatible(q[k], key)
    ensures Orderly(q[j := key])
  {
    var q' := q[j := key];
    forall k, l | k in q' && l in q' ensures Compatible(q'[k], q'[l]) {
      if k != j && l != j {
        assert Compatible(q[k], q[l]);
      } else if k != j {
        CompatibleBothWays(q[k], key);
      } else if l != j {
        CompatibleBothWays(q[l], key);
      }
    }
  }

  lemma CompatibleBothWays(k: Key, l: Key)
    ensures Compatible(k, l) == Compatible(l, k) && Compatible(k, k)
  {
  }

  lemma RemoveKeepsLine(z: ZSet, q: Line, j: JobId)
    requires Stores(z, q) && Orderly(q)
    ensures Stores(z - {j}, q - {j}) && Orderly(q - {j})
  {
  }

  /** The order in which repeated pops empty the set. */
  function Drain(z: ZSet): (r: seq<JobId>)
    ensures |r| == |z|
    decreases |z|
  {
    if z == map[] then []
    else
      var j := MinMember(z);
      assert (z - {j}).Keys == z.Keys - {j};
      [j] + Drain(z - {j})
  }

  predicate InLine(q: Line, r: seq<JobId>) {
    forall i, k | 0 <= i < k < |r| :: Ahead(q, r[i], r[k])
  }

  lemma InLineCons(q: Line, m: JobId, rest: seq<JobId>)
    requires First(q, m) && InLine(q - {m}, rest) && forall j | j in rest :: j in q - {m}
    ensures InLine(q, [m] + rest)
  {
    var r := [m] + rest;
    forall i, k | 0 <= i < k < |r| ensures Ahead(q, r[i], r[k]) {
      assert r[k] == rest[k - 1] && rest[k - 1] in rest;
      if i > 0 {
        assert Ahead(q - {m}, rest[i - 1], rest[k - 1]);
      }
    }
  }

  lemma {:induction false} DrainSorted(z: ZSet, q: Line)
    requires SameOrder(z, q)
    ensures InLine(q, Drain(z)) && forall j :: j in Drain(z) <==> j in q
    decreases |z|
  {
    if z != map[] {
      var m := MinMember(z);
      PopIsFirst(z, q);
      assert (z - {m}).Keys == z.Keys - {m};
      DrainSorted(z - {m}, q - {m});
      InLineCons(q, m, Drain(z - {m}));
    }
  }

  /** Draining serves everyone once, in line. */
  lemma DrainInLine(z: ZSet, q: Line)
    requires Stores(z, q) && Orderly(q)
    ensures InLine(q, Drain(z)) && |Drain(z)| == |q| && forall j :: j in Drain(z) <==> j in q
  {
    StoredInOrder(z, q);
    DrainSorted(z, q);
    assert |z.Keys| == |q.Keys|;
  }
}
