/** The Redis sorted sets and the score that orders the main one (src/queue/queue.js, src/queue/claim.js). */
module Queue {
  import opened Jobs

  type ZSet = map<JobId, int>

  // -------------------------------------------------------------------------
  // Sorted sets
  // -------------------------------------------------------------------------

  predicate Before(z: ZSet, j: JobId, k: JobId)
    requires j in z && k in z
  {
    z[j] < z[k] || (z[j] == z[k] && j <= k)
  }

  predicate IsMin(z: ZSet, j: JobId) {
    j in z && forall k | k in z :: Before(z, j, k)
  }

  lemma MinExists(z: ZSet)
    requires z != map[]
    ensures exists j :: j in z && IsMin(z, j)
    decreases |z|
  {
    var j :| j in z;
    var rest := z - {j};
    if rest == map[] {
      assert forall k | k in z :: k != j ==> k in rest;
      assert IsMin(z, j);
    } else {
      assert |rest| < |z| by {
        assert rest.Keys == z.Keys - {j};
      }
      MinExists(rest);
      var m :| m in rest && IsMin(rest, m);
      assert forall k | k in z :: k == j || k in rest;
      if Before(z, j, m) {
        assert IsMin(z, j);
      } else {
        assert IsMin(z, m);
      }
    }
  }

  /** What BZPOPMIN returns: the lowest score, the lowest member among equals. */
  function MinMember(z: ZSet): (j: JobId)
    requires z != map[]
    ensures IsMin(z, j)
  {
    MinExists(z);
    var j :| j in z && IsMin(z, j);
    j
  }

  predicate NoDup<T(==)>(s: seq<T>) {
    forall i, k | 0 <= i < k < |s| :: s[i] != s[k]
  }

  /** `due` lists, in some order, exactly the members whose score is at most `asOf`. */
  predicate ListsDue(z: ZSet, due: seq<JobId>, asOf: int) {
    && NoDup(due)
    && (forall j | j in due :: j in z && z[j] <= asOf)
    && (forall j | j in z && z[j] <= asOf :: j in due)
  }

  // -------------------------------------------------------------------------
  // Scores are JavaScript numbers
  // -------------------------------------------------------------------------

  const PRIORITY_WEIGHT := 1_000_000_000_000
  const TWO_53 := 9_007_199_254_740_992

  function Abs(n: int): nat {
    if n >= 0 then n else -n
  }

  /** The spacing of doubles around a number of magnitude n > u * 2^52: the least power of two
      u * 2^k with n <= u * 2^k * 2^53. */
  function Spacing(n: nat, u: nat := 1): (r: nat)
    requires u >= 1
    ensures r >= u
    decreases n - u
  {
    if n <= TWO_53 * u then u else Spacing(n, 2 * u)
  }

  /** Round an integer to the nearest double, ties to even. */
  function ToDouble(n: int): int {
    var u := Spacing(Abs(n));
    var q, r := n / u, n % u;
    if 2 * r < u || (2 * r == u && q % 2 == 0) then q * u else (q + 1) * u
  }

  function ComputeScore(priority: int, createdAtMs: int): int {
    ToDouble(ToDouble(priority * PRIORITY_WEIGHT) + createdAtMs)
  }
}
