/** The channel scheduler of ObsSimulator: how the velocity channels are split
    into one contiguous block per worker, which worker count divides the
    channels evenly, and which sample values bound each block. */
module ChannelScheduler {
  import opened Common

  // ---------------------------------------------------------------------
  // divide_threads
  // ---------------------------------------------------------------------

  /** The block that receives extra point number `i` (counting from 0): even
      steps walk inward from the front, odd steps inward from the back. */
  function ExtraIndex(t: int, i: int): int
  {
    if i % 2 == 1 then t - 1 - i / 2 else i / 2
  }

  /** Block k of t holds one of the first `steps` extra points exactly when it
      is among the first ceil(steps/2) blocks or the last floor(steps/2). */
  predicate Bumped(t: int, steps: int, k: int)
  {
    k < (steps + 1) / 2 || t - steps / 2 <= k
  }

  /** The block sizes divide_threads returns for t >= 1 workers. */
  function Shares(t: nat, n: int): seq<int>
    requires t >= 1
  {
    seq(t, k => n / t + (if Bumped(t, n % t, k) then 1 else 0))
  }

  /** Step i moves exactly one block, ExtraIndex(t, i), into the bumped set;
      in particular no block is bumped twice while i < t. */
  lemma BumpStep(t: int, i: nat, k: int)
    requires i < t
    requires 0 <= k < t
    ensures Bumped(t, i + 1, k) <==> Bumped(t, i, k) || k == ExtraIndex(t, i)
    ensures k == ExtraIndex(t, i) ==> !Bumped(t, i, k)
  {
  }

  /** The closed form agrees with the step rule of the loop: a block is bumped
      by the first `steps` extras iff some step before `steps` targets it. */
  lemma {:induction false} BumpedIffSomeStep(t: int, steps: nat, k: int)
    requires steps <= t
    requires 0 <= k < t
    ensures Bumped(t, steps, k) <==> exists i :: 0 <= i < steps && ExtraIndex(t, i) == k
  {
    if steps > 0 {
      BumpedIffSomeStep(t, steps - 1, k);
      BumpStep(t, steps - 1, k);
    }
  }

  /** Distinct steps before t target distinct blocks. */
  lemma ExtraIndexInjective(t: int, i: nat, j: nat)
    requires i < t && j < t && i != j
    ensures ExtraIndex(t, i) != ExtraIndex(t, j)
  {
  }

  /** ObsSimulator.divide_threads: a base share n // t for every worker, then
      the n % t leftover points one at a time to ExtraIndex(t, i). */
  method DivideThreads(nThread: int, nDivided: int) returns (r: Result<seq<int>>)
    ensures nThread == 0 <==> r == Err(ZeroDivision)
    ensures nThread < 0 ==> r == Ok([])
    ensures nThread >= 1 ==> r == Ok(Shares(nThread, nDivided))
  {
    if nThread == 0 {
      return Err(ZeroDivision);
    }
    if nThread < 0 {
      // [n // t] * t is the empty list, and range(n % t) is empty as well
      return Ok([]);
    }
    var base := nDivided / nThread;
    var ans := seq(nThread, _ => base);
    var rem := nDivided % nThread;
    var i := 0;
    while i < rem
      invariant 0 <= i <= rem
      invariant |ans| == nThread
      invariant forall k :: 0 <= k < nThread ==>
                  ans[k] == base + (if Bumped(nThread, i, k) then 1 else 0)
    {
      var ii := ExtraIndex(nThread, i);
      forall k | 0 <= k < nThread
        ensures Bumped(nThread, i + 1, k) <==> Bumped(nThread, i, k) || k == ii
        ensures k == ii ==> !Bumped(nThread, i, k)
      {
        BumpStep(nThread, i, k);
      }
      ans := ans[ii := ans[ii] + 1];
      i := i + 1;
    }
    assert ans == Shares(nThread, nDivided);
    return Ok(ans);
  }

  /** How many of the first m blocks are bumped by `steps` extras. */
  function BumpedBelow(t: int, steps: int, m: int): int
  {
    (if m < (steps + 1) / 2 then m else (steps + 1) / 2)
    + (if m > t - steps / 2 then m - (t - steps / 2) else 0)
  }

  /** Number of elements of s equal to v. */
  function Count(s: seq<int>, v: int): nat
  {
    if s == [] then 0 else Count(s[..|s| - 1], v) + (if s[|s| - 1] == v then 1 else 0)
  }

  /** Moving the prefix end past block m - 1 counts it iff it is bumped. */
  lemma BumpedBelowStep(t: int, steps: int, m: int)
    requires 0 <= steps <= t
    ensures BumpedBelow(t, steps, m) ==
              BumpedBelow(t, steps, m - 1) + (if Bumped(t, steps, m - 1) then 1 else 0)
  {
  }

  /** Block sizes of the shape divide_threads produces: base share q, plus one
      on the blocks bumped by `steps` extras. */
  predicate IsShares(s: seq<int>, t: int, q: int, steps: int)
  {
    |s| == t && forall k :: 0 <= k < t ==> s[k] == q + (if Bumped(t, steps, k) then 1 else 0)
  }

  lemma {:induction false} PrefixSum(s: seq<int>, t: nat, q: int, steps: int, m: nat)
    requires IsShares(s, t, q, steps) && 0 <= steps <= t && m <= t
    ensures Sum(s[..m]) == m * q + BumpedBelow(t, steps, m)
  {
    if m > 0 {
      PrefixSum(s, t, q, steps, m - 1);
      var b := if Bumped(t, steps, m - 1) then 1 else 0;
      assert s[m - 1] == q + b;
      assert s[..m] == s[..m - 1] + [s[m - 1]];
      SumSnoc(s[..m - 1], s[m - 1]);
      BumpedBelowStep(t, steps, m);
      MulStep(m, q);
    }
  }

  lemma MulStep(m: int, q: int)
    ensures (m - 1) * q + q == m * q
  {
  }

  lemma {:induction false} PrefixCount(s: seq<int>, t: nat, q: int, steps: int, m: nat)
    requires IsShares(s, t, q, steps) && 0 <= steps <= t && m <= t
    ensures Count(s[..m], q + 1) == BumpedBelow(t, steps, m)
  {
    if m > 0 {
      PrefixCount(s, t, q, steps, m - 1);
      assert s[..m][..m - 1] == s[..m - 1];
      BumpedBelowStep(t, steps, m);
    }
  }

  /** divide_threads(t, n) with t >= 1: t blocks summing to n, each n // t or
      n // t + 1, exactly n % t of them the larger. */
  lemma SharesProperties(t: nat, n: int)
    requires t >= 1
    ensures |Shares(t, n)| == t
    ensures Sum(Shares(t, n)) == n
    ensures forall k :: 0 <= k < t ==> Shares(t, n)[k] == n / t || Shares(t, n)[k] == n / t + 1
    ensures Count(Shares(t, n), n / t + 1) == n % t
  {
    var s, q, rem := Shares(t, n), n / t, n % t;
    assert IsShares(s, t, q, rem);
    PrefixSum(s, t, q, rem, t);
    PrefixCount(s, t, q, rem, t);
    assert s[..t] == s;
    assert t * q + rem == n;
  }

  /** With at least one channel per worker no block is empty. */
  lemma SharesPositive(t: nat, n: int)
    requires 1 <= t <= n
    ensures forall k :: 0 <= k < t ==> Shares(t, n)[k] >= 1
  {
    assert n / t >= 1;
  }

  /** Example: divide_threads(4, 21) == [6, 5, 5, 5]. */
  lemma DivideThreadsExample()
    ensures Shares(4, 21) == [6, 5, 5, 5]
  {
  }

  // ---------------------------------------------------------------------
  // find_proper_nthread
  // ---------------------------------------------------------------------

  /** The divisors of n among t, t-1, ..., 1, largest first. */
  function Divisors(t: int, n: int): (r: seq<int>)
    decreases t
  {
    if t < 1 then []
    else (if n % t == 0 then [t] else []) + Divisors(t - 1, n)
  }

  lemma {:induction false} DivisorsMembers(t: int, n: int, x: int)
    ensures x in Divisors(t, n) <==> 1 <= x <= t && n % x == 0
    decreases t
  {
    if t >= 1 {
      DivisorsMembers(t - 1, n, x);
    }
  }

  /** max() of an integer list: ValueError when it is empty. */
  function Max(s: seq<int>): (r: Result<int>)
    ensures r.Err? <==> s == []
    ensures r.Err? ==> r.error == EmptyMax
    ensures r.Ok? ==> r.value in s && forall x :: x in s ==> x <= r.value
  {
    if s == [] then Err(EmptyMax)
    else if |s| == 1 then Ok(s[0])
    else
      var m := Max(s[1..]).value;
      assert forall x :: x in s ==> x == s[0] || x in s[1..];
      Ok(if s[0] >= m then s[0] else m)
  }

  /** ObsSimulator.find_proper_nthread */
  function FindProperNThread(nThread: int, nDivided: int): Result<int>
  {
    Max(Divisors(nThread, nDivided))
  }

  /** find_proper_nthread(t, n) raises exactly when t < 1; otherwise it is the
      largest worker count i <= t that divides n evenly. */
  lemma FindProperNThreadIsLargest(t: int, n: int)
    ensures FindProperNThread(t, n).Err? <==> t < 1
    ensures t < 1 ==> FindProperNThread(t, n) == Err(EmptyMax)
    ensures t >= 1 ==> var i := FindProperNThread(t, n).value;
                       1 <= i <= t && n % i == 0 &&
                       forall j :: i < j <= t ==> n % j != 0
  {
    if t >= 1 {
      DivisorsMembers(t, n, 1);
      var i := FindProperNThread(t, n).value;
      DivisorsMembers(t, n, i);
      forall j | i < j <= t
        ensures n % j != 0
      {
        DivisorsMembers(t, n, j);
      }
    } else {
      assert Divisors(t, n) == [];
    }
  }

  /** Example: find_proper_nthread(5, 21) == 3. */
  lemma FindProperNThreadExample()
    ensures FindProperNThread(5, 21) == Ok(3)
  {
    FindProperNThreadIsLargest(5, 21);
    assert 21 % 5 != 0 && 21 % 4 != 0;
  }

  // ---------------------------------------------------------------------
  // calc_thread_seps
  // ---------------------------------------------------------------------

  /** Python's s[i] on a list or 1-D array: a negative i counts from the end. */
  function PyIndex<T>(s: seq<T>, i: int): Result<T>
  {
    if 0 <= i < |s| then Ok(s[i])
    else if -|s| <= i < 0 then Ok(s[|s| + i])
    else Err(IndexOutOfRange)
  }

  /** Index of the first sample of block k: the prefix sum of the block sizes. */
  function Offset(divs: seq<int>, k: nat): int
    requires k <= |divs|
  {
    Sum(divs[..k])
  }

  /** The [first, last] pair calc_thread_seps emits for block k. */
  function SepAt(points: seq<real>, divs: seq<int>, k: nat): Result<(real, real)>
    requires k < |divs|
  {
    var s := Offset(divs, k);
    match PyIndex(points, s)
    case Err(e) => Err(e)
    case Ok(first) =>
      match PyIndex(points, s + divs[k] - 1)
      case Err(e) => Err(e)
      case Ok(last) => Ok((first, last))
  }

  lemma OffsetStep(divs: seq<int>, k: nat)
    requires k < |divs|
    ensures Offset(divs, k + 1) == Offset(divs, k) + divs[k]
  {
    assert divs[..k + 1] == divs[..k] + [divs[k]];
    SumSnoc(divs[..k], divs[k]);
  }

  /** ObsSimulator.calc_thread_seps: walks the blocks with a running offset
      and records the literal first and last sample of each. */
  method CalcThreadSeps(points: seq<real>, divs: seq<int>) returns (r: Result<seq<(real, real)>>)
    ensures r.Ok? <==> forall k :: 0 <= k < |divs| ==> SepAt(points, divs, k).Ok?
    ensures r.Err? ==> r.error == IndexOutOfRange
    ensures r.Ok? ==> |r.value| == |divs| &&
                      forall k :: 0 <= k < |divs| ==> r.value[k] == SepAt(points, divs, k).value
  {
    var ans: seq<(real, real)> := [];
    var sumPoints := 0;
    var k := 0;
    while k < |divs|
      invariant 0 <= k <= |divs|
      invariant sumPoints == Offset(divs, k)
      invariant |ans| == k
      invariant forall j :: 0 <= j < k ==> SepAt(points, divs, j).Ok? && ans[j] == SepAt(points, divs, j).value
    {
      var npoints := divs[k];
      var first := PyIndex(points, sumPoints);
      if first.Err? {
        assert !SepAt(points, divs, k).Ok?;
        return Err(IndexOutOfRange);
      }
      var last := PyIndex(points, sumPoints + npoints - 1);
      if last.Err? {
        assert !SepAt(points, divs, k).Ok?;
        return Err(IndexOutOfRange);
      }
      ans := ans + [(first.value, last.value)];
      OffsetStep(divs, k);
      sumPoints := sumPoints + npoints;
      k := k + 1;
    }
    return Ok(ans);
  }

  /** Prefix sums of non-empty blocks are strictly increasing and bounded by the total. */
  lemma {:induction false} OffsetMonotone(divs: seq<int>, j: nat, k: nat)
    requires forall i :: 0 <= i < |divs| ==> divs[i] >= 1
    requires j <= k <= |divs|
    ensures Offset(divs, j) + (k - j) <= Offset(divs, k)
    decreases k - j
  {
    if j < k {
      OffsetMonotone(divs, j, k - 1);
      OffsetStep(divs, k - 1);
    }
  }

  /** When every block is non-empty and the blocks fit in the samples, no
      index wraps or overflows: block k is [points[s], points[s + divs[k] - 1]]
      with s its offset, and block k + 1 starts right after block k ends. */
  lemma SepsInRange(points: seq<real>, divs: seq<int>)
    requires forall i :: 0 <= i < |divs| ==> divs[i] >= 1
    requires Sum(divs) <= |points|
    ensures forall k :: 0 <= k < |divs| ==>
              0 <= Offset(divs, k) && Offset(divs, k) + divs[k] - 1 < |points| &&
              SepAt(points, divs, k) == Ok((points[Offset(divs, k)], points[Offset(divs, k) + divs[k] - 1]))
    ensures forall k :: 0 <= k < |divs| - 1 ==> Offset(divs, k + 1) == (Offset(divs, k) + divs[k] - 1) + 1
  {
    assert divs[..|divs|] == divs;
    forall k | 0 <= k < |divs|
      ensures 0 <= Offset(divs, k) && Offset(divs, k) + divs[k] - 1 < |points|
    {
      OffsetMonotone(divs, 0, k);
      OffsetStep(divs, k);
      OffsetMonotone(divs, k + 1, |divs|);
    }
    forall k | 0 <= k < |divs| - 1
      ensures Offset(divs, k + 1) == (Offset(divs, k) + divs[k] - 1) + 1
    {
      OffsetStep(divs, k);
    }
  }

  /** Every sample index below the total lies in some block ... */
  lemma BlocksCover(divs: seq<int>, j: int)
    requires forall i :: 0 <= i < |divs| ==> divs[i] >= 1
    requires 0 <= j < Sum(divs)
    ensures exists k :: 0 <= k < |divs| && Offset(divs, k) <= j < Offset(divs, k + 1)
  {
    assert divs[..|divs|] == divs;
    var k := BlockOf(divs, j, |divs|);
  }

  /** ... and in only one: blocks do not overlap. */
  lemma BlocksDisjoint(divs: seq<int>, j: int, k1: nat, k2: nat)
    requires forall i :: 0 <= i < |divs| ==> divs[i] >= 1
    requires k1 < |divs| && k2 < |divs|
    requires Offset(divs, k1) <= j < Offset(divs, k1 + 1)
    requires Offset(divs, k2) <= j < Offset(divs, k2 + 1)
    ensures k1 == k2
  {
    if k1 < k2 {
      OffsetMonotone(divs, k1 + 1, k2);
    } else if k2 < k1 {
      OffsetMonotone(divs, k2 + 1, k1);
    }
  }

  lemma {:induction false} BlockOf(divs: seq<int>, j: int, m: nat) returns (k: nat)
    requires forall i :: 0 <= i < |divs| ==> divs[i] >= 1
    requires m <= |divs|
    requires 0 <= j < Offset(divs, m)
    ensures k < m && Offset(divs, k) <= j < Offset(divs, k + 1)
  {
    assert m > 0 by { assert divs[..0] == []; }
    OffsetStep(divs, m - 1);
    if j >= Offset(divs, m - 1) {
      k := m - 1;
    } else {
      k := BlockOf(divs, j, m - 1);
    }
  }

  /** On sorted samples the pair of a block bounds every sample in it: the
      recorded values are that block's true minimum and maximum. */
  lemma SepsAreMinMax(points: seq<real>, divs: seq<int>, k: nat, j: int)
    requires forall a, b :: 0 <= a <= b < |points| ==> points[a] <= points[b]
    requires forall i :: 0 <= i < |divs| ==> divs[i] >= 1
    requires Sum(divs) <= |points|
    requires k < |divs|
    requires Offset(divs, k) <= j < Offset(divs, k) + divs[k]
    ensures 0 <= j < |points|
    ensures SepAt(points, divs, k).Ok?
    ensures SepAt(points, divs, k).value.0 <= points[j] <= SepAt(points, divs, k).value.1
  {
    SepsInRange(points, divs);
  }

  /** The schedule ObsSimulator.observe builds: with 1 <= t <= n workers and n
      samples, calc_thread_seps over divide_threads(t, n) raises nothing and
      every block is read without wrap-around. */
  lemma ScheduleWellFormed(points: seq<real>, t: nat)
    requires 1 <= t <= |points|
    ensures forall k :: 0 <= k < t ==>
              0 <= Offset(Shares(t, |points|), k) &&
              Offset(Shares(t, |points|), k) + Shares(t, |points|)[k] - 1 < |points|
    ensures forall k :: 0 <= k < t ==>
              var s := Offset(Shares(t, |points|), k);
              SepAt(points, Shares(t, |points|), k) == Ok((points[s], points[s + Shares(t, |points|)[k] - 1]))
  {
    SharesProperties(t, |points|);
    SharesPositive(t, |points|);
    SepsInRange(points, Shares(t, |points|));
  }

  /** Blocks of one point each start at their own index. */
  lemma {:induction false} UnitOffset(divs: seq<int>, k: nat)
    requires k <= |divs|
    requires forall i :: 0 <= i < k ==> divs[i] == 1
    ensures Offset(divs, k) == k
  {
    if k > 0 {
      UnitOffset(divs, k - 1);
      OffsetStep(divs, k - 1);
    }
  }

  /** With fewer points than workers the base share is zero and every point
      is a leftover. */
  lemma SmallShares(t: nat, n: nat)
    requires n < t
    ensures |Shares(t, n)| == t
    ensures forall i :: 0 <= i < t ==> Shares(t, n)[i] == (if Bumped(t, n, i) then 1 else 0)
  {
    assert n / t == 0 && n % t == n;
  }

  /** observe only checks n_thread > 1, so there may be more workers than
      channels. Then n // t is 0, block (n+1)/2 is empty and starts at index
      (n+1)/2: with one channel it raises IndexError, otherwise its pair is
      (points[k], points[k-1]), the last sample before the first. */
  lemma OversubscribedSchedule(points: seq<real>, t: nat)
    requires 1 <= |points| < t
    ensures var n := |points|;
            var k := (n + 1) / 2;
            k < t && Shares(t, n)[k] == 0 && Offset(Shares(t, n), k) == k &&
            (n == 1 ==> SepAt(points, Shares(t, n), k) == Err(IndexOutOfRange)) &&
            (n >= 2 ==> SepAt(points, Shares(t, n), k) == Ok((points[k], points[k - 1])))
  {
    var n := |points|;
    var k := (n + 1) / 2;
    var s := Shares(t, n);
    SmallShares(t, n);
    assert !Bumped(t, n, k);
    assert forall i :: 0 <= i < k ==> Bumped(t, n, i);
    UnitOffset(s, k);
  }
}
