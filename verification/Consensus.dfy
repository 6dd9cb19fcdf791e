/**
 Header arithmetic: block work, difficulty retargeting, median time past, and what they
 guarantee along every admitted chain of headers.
 */
module Consensus {
  import opened Wrappers


  const POW256: nat := 0x1_0000000000000000_0000000000000000_0000000000000000_0000000000000000
  const MEDIAN_WIDTH: nat := 11

  datatype Params = Params(interval: nat, spacing: nat, powLimit: nat, initialTarget: nat,
                           genesisTime: nat, medianWidth: nat, futureSkew: nat)
  {
    /** What the configuration must satisfy for retargeting never to reject its inputs. */
    predicate Valid()
    {
      interval >= 16 && spacing >= 1 && 1 <= initialTarget <= powLimit < POW256 && medianWidth >= 1
    }
  }

  datatype Header = Header(timestamp: nat, target: nat)

  function Min(a: int, b: int): int { if a <= b then a else b }
  function Max(a: int, b: int): int { if a >= b then a else b }

  function Work(target: nat): (w: nat)
    requires 1 <= target < POW256
    ensures w >= 1
  {
    POW256 / (target + 1)
  }


  /** None where the source raises on invalid parameters. */
  function Retarget(parentTarget: int, firstTime: int, lastTime: int, interval: int, spacing: int,
                    powLimit: int): (r: Option<int>)
  {
    if interval < 16 || spacing < 1 then None
    else if !(1 <= parentTarget <= powLimit < POW256) || Min(firstTime, lastTime) < 0 then None
    else
      DesiredPositive(interval, spacing);
      var desired := (interval - 1) * spacing;
      var observed := Max(1, lastTime - firstTime);
      var bounded := Min(4 * desired, Max((desired + 3) / 4, observed));
      Some(Min(powLimit, Max(1, parentTarget * bounded / desired)))
  }

  lemma {:induction false} DesiredPositive(interval: int, spacing: int)
    requires interval >= 16 && spacing >= 1
    ensures (interval - 1) * spacing >= 15
  {
    assert (interval - 1) * spacing >= (interval - 1) * 1;
  }

  lemma {:induction false} MulMono(t: nat, x: int, y: int)
    requires x <= y
    ensures t * x <= t * y
  {
  }

  lemma {:induction false} QuotientBetween(x: int, d: nat, lo: int, hi: int)
    requires d >= 1 && lo * d <= x <= hi * d
    ensures lo <= x / d <= hi
  {
    var q := x / d;
    assert x == q * d + x % d;
    assert q <= lo - 1 ==> q * d <= (lo - 1) * d;
    assert q >= hi + 1 ==> q * d >= (hi + 1) * d;
  }

  lemma {:induction false} ScaledQuotient(t: nat, b: nat, d: nat)
    requires d >= 1 && d <= 4 * b && b <= 4 * d
    ensures t / 4 <= t * b / d <= 4 * t
  {
    var h := t / 4;
    MulMono(t, b, 4 * d);
    MulMono(h, d, 4 * b);
    MulMono(b, 4 * h, t);
    assert t * (4 * d) == 4 * t * d && h * (4 * b) == b * (4 * h);
    QuotientBetween(t * b, d, h, 4 * t);
  }

  /** A retarget never fails on admitted inputs, stays in range, and moves by at most a factor of four. */
  lemma {:induction false} RetargetBounds(t: nat, first: nat, last: nat, interval: nat, spacing: nat, powLimit: nat)
    requires interval >= 16 && spacing >= 1 && 1 <= t <= powLimit < POW256
    ensures var r := Retarget(t, first, last, interval, spacing, powLimit);
            r.Some? && 1 <= r.value <= powLimit && t / 4 <= r.value <= 4 * t
  {
    DesiredPositive(interval, spacing);
    var desired := (interval - 1) * spacing;
    var bounded := Min(4 * desired, Max((desired + 3) / 4, Max(1, last - first)));
    ScaledQuotient(t, bounded, desired);
  }

  // ---------- median time past ----------

  function Insert(x: int, s: seq<int>): seq<int>
  {
    if s == [] || x <= s[0] then [x] + s else [s[0]] + Insert(x, s[1..])
  }

  function Sort(s: seq<int>): (r: seq<int>)
  {
    if s == [] then [] else Insert(s[0], Sort(s[1..]))
  }

  ghost predicate Ascending(s: seq<int>)
  {
    |s| <= 1 || (s[0] <= s[1] && Ascending(s[1..]))
  }

  /** How many elements are below m. */
  ghost function Below(s: seq<int>, m: int): nat
  {
    if s == [] then 0 else (if s[0] < m then 1 else 0) + Below(s[1..], m)
  }

  lemma {:induction false} InsertFacts(x: int, s: seq<int>, m: int)
    requires Ascending(s)
    ensures Ascending(Insert(x, s)) && |Insert(x, s)| == |s| + 1
    ensures Insert(x, s)[0] == if s == [] || x <= s[0] then x else s[0]
    ensures Below(Insert(x, s), m) == Below(s, m) + (if x < m then 1 else 0)
  {
    if s == [] || x <= s[0] {
      assert ([x] + s)[1..] == s;
    } else {
      var t := Insert(x, s[1..]);
      InsertFacts(x, s[1..], m);
      assert ([s[0]] + t)[1..] == t;
    }
  }

  lemma {:induction false} SortFacts(s: seq<int>, m: int)
    ensures Ascending(Sort(s)) && |Sort(s)| == |s|
    ensures Below(Sort(s), m) == Below(s, m)
  {
    if s != [] {
      SortFacts(s[1..], m);
      InsertFacts(s[0], Sort(s[1..]), m);
    }
  }

  /** In an ascending sequence, position k is below m exactly when more than k elements are. */
  lemma {:induction false} BelowRank(s: seq<int>, m: int, k: nat)
    requires Ascending(s) && k < |s|
    ensures s[k] < m <==> Below(s, m) > k
  {
    if s[0] >= m { NoneBelow(s, m); }
    if k > 0 { BelowRank(s[1..], m, k - 1); }
  }

  lemma {:induction false} NoneBelow(s: seq<int>, m: int)
    requires Ascending(s) && s != [] && s[0] >= m
    ensures Below(s, m) == 0
  {
    if |s| > 1 { NoneBelow(s[1..], m); }
  }

  function Last(s: seq<int>, n: nat): seq<int>
  {
    if |s| <= n then s else s[|s| - n..]
  }

  function Median(s: seq<int>): int
    requires s != []
  {
    SortFacts(s, 0);
    Sort(s)[|s| / 2]
  }

  datatype Timing = InvalidMedian | DeferredFuture | Admissible

  /** Later than the median of the recent ancestors means later than more than half of them. */
  function TimestampState(candidate: int, ancestors: seq<int>, now: int, futureSkew: int): (r: Timing)
    ensures var recent := Last(ancestors, MEDIAN_WIDTH);
            && (r == InvalidMedian <==> recent != [] && 2 * Below(recent, candidate) <= |recent|)
            && (r == DeferredFuture <==> r != InvalidMedian && candidate > now + futureSkew)
  {
    var recent := Last(ancestors, MEDIAN_WIDTH);
    SortFacts(recent, candidate);
    assert recent != [] ==> (Median(recent) < candidate <==> Below(recent, candidate) > |recent| / 2) by {
      if recent != [] { BelowRank(Sort(recent), candidate, |recent| / 2); }
    }
    if recent != [] && candidate <= Median(recent) then InvalidMedian
    else if candidate > now + futureSkew then DeferredFuture
    else Admissible
  }

  lemma {:induction false} BelowConcat(a: seq<int>, b: seq<int>, m: int)
    ensures Below(a + b, m) == Below(a, m) + Below(b, m)
  {
    if a == [] {
      assert a + b == b;
    } else {
      BelowConcat(a[1..], b, m);
      assert (a + b)[1..] == a[1..] + b;
    }
  }

  /**
   Appending an admitted timestamp never lowers the median of the window of the last n
   timestamps, whether the window is still growing or already full, for every width n.
   */
  lemma {:induction false} MedianMonotone(times: seq<int>, c: int, n: nat)
    requires times != [] && n >= 1 && c > Median(Last(times, n))
    ensures Median(Last(times, n)) <= Median(Last(times + [c], n))
  {
    var w, v := Last(times, n), Last(times + [c], n);
    var m := Median(w);
    assert Below(v, m) <= Below(w, m) by {
      if |times| < n {
        assert v == w + [c];
        BelowConcat(w, [c], m);
      } else {
        assert v == w[1..] + [c];
        BelowConcat(w[1..], [c], m);
      }
    }
    SortFacts(w, m);
    SortFacts(v, m);
    BelowRank(Sort(w), m, |w| / 2);
    BelowRank(Sort(v), m, |v| / 2);
  }

  // ---------- chains of headers, oldest first ----------

  function Times(chain: seq<Header>): (t: seq<int>)
    ensures |t| == |chain|
  {
    if chain == [] then [] else Times(chain[..|chain| - 1]) + [chain[|chain| - 1].timestamp]
  }

  function EffectiveWidth(p: Params): nat { Min(p.medianWidth, MEDIAN_WIDTH) }

  /** Median time past of the chain, as admission of its next block sees it. */
  function MedianTimePast(p: Params, chain: seq<Header>): int
    requires p.Valid() && chain != []
  {
    Median(Last(Times(chain), EffectiveWidth(p)))
  }

  /** The target the next block on top of the chain must carry. */
  function NextTarget(p: Params, chain: seq<Header>): Option<int>
    requires chain != []
  {
    var h := |chain|;
    if p.interval > 0 && h % p.interval == 0 && h >= p.interval then
      Retarget(chain[h - 1].target, chain[h - p.interval].timestamp, chain[h - 1].timestamp, p.interval, p.spacing,
               p.powLimit)
    else Some(chain[h - 1].target)
  }

  /** The first n headers passed the time check of admission (genesis is exempt). */
  ghost predicate TimesAdmitted(p: Params, chain: seq<Header>, n: nat)
    requires p.Valid() && n <= |chain|
  {
    n <= 1 || (TimesAdmitted(p, chain, n - 1) && chain[n - 1].timestamp > MedianTimePast(p, chain[..n - 1]))
  }

  /** The first n headers carry the targets their ancestors prescribe. */
  ghost predicate TargetsAdmitted(p: Params, chain: seq<Header>, n: nat)
    requires n <= |chain|
  {
    n == 0
    || (n == 1 && chain[0].target == p.initialTarget)
    || (n > 1 && TargetsAdmitted(p, chain, n - 1) && Some(chain[n - 1].target) == NextTarget(p, chain[..n - 1]))
  }

  ghost predicate Admitted(p: Params, chain: seq<Header>)
    requires p.Valid()
  {
    chain != [] && chain[0].timestamp == p.genesisTime && TimesAdmitted(p, chain, |chain|)
    && TargetsAdmitted(p, chain, |chain|)
  }

  lemma {:induction false} TargetStep(p: Params, prior: seq<Header>)
    requires p.Valid() && prior != [] && 1 <= prior[|prior| - 1].target <= p.powLimit
    ensures NextTarget(p, prior).Some? && 1 <= NextTarget(p, prior).value <= p.powLimit
    ensures prior[|prior| - 1].target / 4 <= NextTarget(p, prior).value <= 4 * prior[|prior| - 1].target
  {
    var h := |prior|;
    if h % p.interval == 0 && h >= p.interval {
      RetargetBounds(prior[h - 1].target, prior[h - p.interval].timestamp, prior[h - 1].timestamp, p.interval,
                     p.spacing, p.powLimit);
    }
  }

  /** Along every admitted chain the target stays between one and the proof-of-work limit. */
  lemma {:induction false} TargetInRange(p: Params, chain: seq<Header>, n: nat, i: nat)
    requires p.Valid() && i < n <= |chain| && TargetsAdmitted(p, chain, n)
    ensures 1 <= chain[i].target <= p.powLimit
  {
    if n > 1 {
      TargetInRange(p, chain, n - 1, if i == n - 1 then i - 1 else i);
      if i == n - 1 { TargetStep(p, chain[..n - 1]); }
    }
  }

  /** Along every admitted chain each target is within a factor of four of its parent's. */
  lemma {:induction false} TargetMovesByFour(p: Params, chain: seq<Header>, n: nat, i: nat)
    requires p.Valid() && i + 1 < n <= |chain| && TargetsAdmitted(p, chain, n)
    ensures chain[i].target / 4 <= chain[i + 1].target <= 4 * chain[i].target
  {
    if i + 2 == n {
      TargetInRange(p, chain, n - 1, i);
      TargetStep(p, chain[..n - 1]);
    } else {
      TargetMovesByFour(p, chain, n - 1, i);
    }
  }

  lemma {:induction false} MedianTimeStep(p: Params, chain: seq<Header>, m: nat)
    requires p.Valid() && 2 <= m <= |chain| && chain[m - 1].timestamp > MedianTimePast(p, chain[..m - 1])
    ensures MedianTimePast(p, chain[..m - 1]) <= MedianTimePast(p, chain[..m])
  {
    MedianMonotone(Times(chain[..m - 1]), chain[m - 1].timestamp, EffectiveWidth(p));
    assert chain[..m][..m - 1] == chain[..m - 1];
  }

  /** Median time past never decreases along an admitted chain. */
  lemma {:induction false} MedianTimeMonotone(p: Params, chain: seq<Header>, n: nat, m: nat)
    requires p.Valid() && 1 <= n <= m <= |chain| && TimesAdmitted(p, chain, m)
    ensures MedianTimePast(p, chain[..n]) <= MedianTimePast(p, chain[..m])
    decreases m
  {
    if n < m {
      MedianTimeMonotone(p, chain, n, m - 1);
      MedianTimeStep(p, chain, m);
    }
  }

  /** Every timestamp after genesis exceeds the median time past of each of its ancestors. */
  lemma {:induction false} TimestampExceedsEveryMedian(p: Params, chain: seq<Header>, n: nat, i: nat, j: nat)
    requires p.Valid() && 1 <= j <= i < n <= |chain| && TimesAdmitted(p, chain, n)
    ensures chain[i].timestamp > MedianTimePast(p, chain[..j])
  {
    if i == n - 1 {
      MedianTimeMonotone(p, chain, j, i);
    } else {
      TimestampExceedsEveryMedian(p, chain, n - 1, i, j);
    }
  }

  /** Total work of the first n headers above genesis. */
  ghost function ChainWork(p: Params, chain: seq<Header>, n: nat): nat
    requires p.Valid() && 1 <= n <= |chain| && TargetsAdmitted(p, chain, n)
  {
    if n == 1 then 0
    else
      TargetInRange(p, chain, n, n - 1);
      ChainWork(p, chain, n - 1) + Work(chain[n - 1].target)
  }
}
