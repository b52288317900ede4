/** The dashboard's math utilities: the Monte Carlo price simulation and the statistics
    it aggregates, the boundary branch of the Black–Scholes probability and the
    Fibonacci extension targets. The per-day multiplicative step
    `exp((drift − v²/2)·dt + v·√dt·nRand(seed))` is the parameter `step`, a function of
    the seed offset `i·maxD + d` (the constant `simSeed` folded in); the normal-CDF
    value of `bsProb` for a positive horizon is the parameter `tail`. */
module MonteCarlo {
  import opened Common
  import opened Sorting

  // ---------------------------------------------------------------------------
  // bsProb and calcFibTargets
  // ---------------------------------------------------------------------------

  /** `bsProb(S, K, r, v, T)`: at or past expiry, 1 when the spot is above the strike and
      0 otherwise; before expiry the normal-CDF value `tail`. */
  function BsProb(S: real, K: real, T: real, tail: real): (p: real)
    ensures T <= 0.0 ==> (p == 1.0 <==> S > K) && (p == 0.0 <==> S <= K)
    ensures T > 0.0 ==> p == tail
  {
    if T <= 0.0 then (if S > K then 1.0 else 0.0) else tail
  }

  /** The eight Fibonacci extension levels of `calcFibTargets`. */
  datatype FibTargets = FibTargets(
    fib236: real, fib382: real, fib500: real, fib618: real,
    fib786: real, fib100: real, fib1272: real, fib1618: real)

  function CalcFibTargets(spot: real, low52: real, high52: real): FibTargets {
    var range := high52 - low52;
    FibTargets(spot + range * 0.236, spot + range * 0.382, spot + range * 0.5, spot + range * 0.618,
               spot + range * 0.786, spot + range * 1.0, spot + range * 1.272, spot + range * 1.618)
  }

  /** A flat 52-week range puts every level at the spot price. */
  lemma FibFlat(spot: real, level: real)
    ensures var f := CalcFibTargets(spot, level, level);
      f.fib236 == spot && f.fib382 == spot && f.fib500 == spot && f.fib618 == spot
      && f.fib786 == spot && f.fib100 == spot && f.fib1272 == spot && f.fib1618 == spot
  {
  }

  /** With a rising range the levels strictly increase, all lie above the spot price and
      the 100% level adds exactly the range; a falling range mirrors this below the spot. */
  lemma FibOrdered(spot: real, low52: real, high52: real)
    ensures var f := CalcFibTargets(spot, low52, high52);
      f.fib100 == spot + (high52 - low52)
      && (high52 > low52 ==>
        spot < f.fib236 < f.fib382 < f.fib500 < f.fib618 < f.fib786 < f.fib100 < f.fib1272 < f.fib1618)
      && (high52 < low52 ==>
        spot > f.fib236 > f.fib382 > f.fib500 > f.fib618 > f.fib786 > f.fib100 > f.fib1272 > f.fib1618)
  {
  }

  // ---------------------------------------------------------------------------
  // The simulated paths, as functions of the step
  // ---------------------------------------------------------------------------

  /** A preview-path point: day and price. */
  datatype Point = Point(d: int, p: real)

  /** A percentile row; a percentile of an empty list is `undefined`, here `None`. */
  datatype PctPoint = PctPoint(d: int, p5: Option<real>, p50: Option<real>, p95: Option<real>)

  /** The statistics of one target. */
  datatype Prob = Prob(tgt: real, mc: real, bs: real, mean: real, p5: real, p95: real)

  datatype McResult = McResult(pctData: seq<PctPoint>, probs: seq<Prob>, finals: seq<seq<real>>)

  /** Only this many paths are kept as previews. */
  const PREVIEW_PATHS: nat := 50

  /** `Math.max(...horizons)`; the empty list's `-Infinity` is represented by -1, which
      every loop of the simulation treats the same way. */
  function MaxDay(horizons: seq<int>): (m: int)
    ensures forall k :: 0 <= k < |horizons| ==> horizons[k] <= m
    ensures horizons != [] ==> exists k :: 0 <= k < |horizons| && horizons[k] == m
    ensures horizons == [] ==> m < 0
    decreases |horizons|
  {
    if horizons == [] then -1
    else
      var rest := MaxDay(horizons[1..]);
      if |horizons| == 1 || horizons[0] >= rest then horizons[0] else rest
  }

  /** The number of simulated days: `maxD`, or none when it is not positive. */
  function Days(maxD: int): nat {
    if maxD > 0 then maxD else 0
  }

  /** A horizon that some day of the simulation equals. */
  predicate Reached(h: int, maxD: int) {
    1 <= h <= maxD
  }

  /** The price of path `i` after `d` days. */
  function Price(spot: real, step: int -> real, maxD: int, i: nat, d: nat): real {
    if d == 0 then spot else Price(spot, step, maxD, i, d - 1) * step(i * maxD + d)
  }

  /** Path `i`'s preview: one point per day 0..d. */
  function PathPoints(spot: real, step: int -> real, maxD: int, i: nat, d: nat): seq<Point> {
    if d == 0 then [Point(0, spot)]
    else PathPoints(spot, step, maxD, i, d - 1) + [Point(d, Price(spot, step, maxD, i, d))]
  }

  /** The previews kept after `n` paths: the first 50. */
  function PreviewPaths(spot: real, step: int -> real, maxD: int, n: nat): seq<seq<Point>> {
    if n == 0 then []
    else
      PreviewPaths(spot, step, maxD, n - 1)
      + (if n - 1 < PREVIEW_PATHS then [PathPoints(spot, step, maxD, n - 1, Days(maxD))] else [])
  }

  /** `finals[j]` after `n` paths, for horizon `h`: each path's price on day `h` when
      that day is simulated. */
  function Column(spot: real, step: int -> real, maxD: int, h: int, n: nat): seq<real> {
    if n == 0 then []
    else
      Column(spot, step, maxD, h, n - 1)
      + (if Reached(h, maxD) then [Price(spot, step, maxD, n - 1, h)] else [])
  }

  /** A preview has one point per simulated day and day 0 included, each carrying its
      day and that day's price; it starts at the spot price. */
  lemma {:induction false} PathPointsShape(spot: real, step: int -> real, maxD: int, i: nat, d: nat)
    ensures |PathPoints(spot, step, maxD, i, d)| == d + 1
    ensures PathPoints(spot, step, maxD, i, d)[0] == Point(0, spot)
    ensures forall k :: 0 <= k <= d ==> PathPoints(spot, step, maxD, i, d)[k] == Point(k, Price(spot, step, maxD, i, k))
  {
    if d > 0 {
      PathPointsShape(spot, step, maxD, i, d - 1);
    }
  }

  /** Exactly the first `min(n, 50)` paths are kept, path `k` at position `k`. */
  lemma {:induction false} PreviewPathsShape(spot: real, step: int -> real, maxD: int, n: nat)
    ensures |PreviewPaths(spot, step, maxD, n)| == MinNat(n, PREVIEW_PATHS)
    ensures forall k :: 0 <= k < |PreviewPaths(spot, step, maxD, n)| ==>
      PreviewPaths(spot, step, maxD, n)[k] == PathPoints(spot, step, maxD, k, Days(maxD))
  {
    if n > 0 {
      PreviewPathsShape(spot, step, maxD, n - 1);
    }
  }

  /** A reached horizon collects one terminal value per path, path `k`'s at position `k`;
      an unreached one collects nothing. */
  lemma {:induction false} ColumnShape(spot: real, step: int -> real, maxD: int, h: int, n: nat)
    ensures |Column(spot, step, maxD, h, n)| == if Reached(h, maxD) then n else 0
    ensures Reached(h, maxD) ==> forall k :: 0 <= k < n ==> Column(spot, step, maxD, h, n)[k] == Price(spot, step, maxD, k, h)
  {
    if n > 0 {
      ColumnShape(spot, step, maxD, h, n - 1);
    }
  }

  /** With a positive spot and positive steps every simulated price is positive. */
  lemma {:induction false} PricePositive(spot: real, step: int -> real, maxD: int, i: nat, d: nat)
    requires spot > 0.0 && forall k :: step(k) > 0.0
    ensures Price(spot, step, maxD, i, d) > 0.0
  {
    if d > 0 {
      PricePositive(spot, step, maxD, i, d - 1);
      assert step(i * maxD + d) > 0.0;
    }
  }

  // ---------------------------------------------------------------------------
  // Percentiles and per-target statistics
  // ---------------------------------------------------------------------------

  /** `Math.floor(len · pct/100)`. */
  function PctIndex(len: nat, pct: nat): nat {
    len * pct / 100
  }

  /** `sorted[Math.floor(sorted.length · pct/100)]`, `undefined` past the end. */
  function Percentile(sorted: seq<real>, pct: nat): Option<real> {
    if PctIndex(|sorted|, pct) < |sorted| then Some(sorted[PctIndex(|sorted|, pct)]) else None
  }

  /** Percentile indices grow with the percentage and stay inside a non-empty list. */
  lemma PctIndexBounds(len: nat, a: nat, b: nat)
    requires a <= b < 100 && len >= 1
    ensures PctIndex(len, a) <= PctIndex(len, b) < len
  {
    assert len * a <= len * b;
    assert len * b < len * 100;
  }

  /** `x[Math.floor(d / 5)]?.p || spot`: the preview's point at index `d/5` (not day `d`),
      falling back to the spot price when it is missing or zero. */
  function PreviewValue(x: seq<Point>, spot: real, d: nat): real {
    if d / 5 < |x| && x[d / 5].p != 0.0 then x[d / 5].p else spot
  }

  function PreviewValues(paths: seq<seq<Point>>, spot: real, d: nat): (ps: seq<real>)
    ensures |ps| == |paths|
  {
    seq(|paths|, k requires 0 <= k < |paths| => PreviewValue(paths[k], spot, d))
  }

  /** The percentile row for day `d`. */
  function PctRow(paths: seq<seq<Point>>, spot: real, d: nat): PctPoint {
    var ps := SortAsc(PreviewValues(paths, spot, d));
    PctPoint(d, Percentile(ps, 5), Percentile(ps, 50), Percentile(ps, 95))
  }

  /** The first `c` percentile rows, for days 0, 5, 10, … */
  function PctRows(paths: seq<seq<Point>>, spot: real, c: nat): seq<PctPoint> {
    if c == 0 then [] else PctRows(paths, spot, c - 1) + [PctRow(paths, spot, 5 * (c - 1))]
  }

  /** Each percentile row is defined exactly when there are previews, and then its
      5th, 50th and 95th percentiles are ordered. */
  lemma PctRowOrdered(paths: seq<seq<Point>>, spot: real, d: nat)
    ensures var r := PctRow(paths, spot, d);
      r.d == d
      && (r.p5.Some? <==> |paths| > 0) && (r.p50.Some? <==> |paths| > 0) && (r.p95.Some? <==> |paths| > 0)
      && (|paths| > 0 ==> r.p5.value <= r.p50.value <= r.p95.value)
  {
    var ps := SortAsc(PreviewValues(paths, spot, d));
    if |paths| > 0 {
      SortAscSorted(PreviewValues(paths, spot, d));
      PctIndexBounds(|ps|, 5, 50);
      PctIndexBounds(|ps|, 50, 95);
    }
  }

  /** `x => x >= tgt`. */
  function AtLeast(tgt: real): real -> bool {
    x => x >= tgt
  }

  /** The statistics of one target over the terminal values `f` of its horizon `h`. */
  function ProbFor(spot: real, tgt: real, f: seq<real>, h: int, tail: real): Prob {
    if |f| == 0 then Prob(tgt, 0.0, 0.0, spot, spot, spot)
    else
      var sorted := SortAsc(f);
      Prob(tgt,
           (|Filter(f, AtLeast(tgt))| as real) / (|f| as real),
           BsProb(spot, tgt, (h as real) / 365.0, tail),
           Sum(f) / (|f| as real),
           sorted[PctIndex(|f|, 5)],
           sorted[PctIndex(|f|, 95)])
  }

  /** `targets.map(...)`: target `i` is evaluated on `finals[i]` and horizon `i`. */
  function Probs(spot: real, targets: seq<real>, horizons: seq<int>, finals: seq<seq<real>>,
                 tail: (real, int) -> real): (ps: seq<Prob>)
    requires |targets| <= |horizons| && |targets| <= |finals|
    ensures |ps| == |targets|
  {
    seq(|targets|, i requires 0 <= i < |targets| => ProbFor(spot, targets[i], finals[i], horizons[i], tail(targets[i], horizons[i])))
  }

  /** A target's statistics: the empty case gives zeros and the spot price; otherwise the
      hit rate lies in [0, 1] and is positive exactly when some terminal value reaches
      the target, the 5th
      percentile is at most the 95th and both are terminal values, and the mean lies
      between the smallest and the largest terminal value. */
  lemma ProbForProperties(spot: real, tgt: real, f: seq<real>, h: int, tail: real)
    ensures var p := ProbFor(spot, tgt, f, h, tail);
      p.tgt == tgt
      && (|f| == 0 ==> p == Prob(tgt, 0.0, 0.0, spot, spot, spot))
      && (|f| > 0 ==>
        0.0 <= p.mc <= 1.0 && (p.mc > 0.0 <==> exists k :: 0 <= k < |f| && f[k] >= tgt)
        && p.p5 <= p.p95 && p.p5 in f && p.p95 in f
        && SeqMin(f) <= p.mean <= SeqMax(f))
  {
    if |f| > 0 {
      SortedPicks(f);
      MeanBetweenMinMax(f);
      HitRateOf(f, tgt);
    }
  }

  /** The share of terminal values reaching the target lies in [0, 1] and is positive
      exactly when one of them does. */
  lemma HitRateOf(f: seq<real>, tgt: real)
    requires |f| > 0
    ensures var mc := (|Filter(f, AtLeast(tgt))| as real) / (|f| as real);
      0.0 <= mc <= 1.0 && (mc > 0.0 <==> exists k :: 0 <= k < |f| && f[k] >= tgt)
  {
    var hits := Filter(f, AtLeast(tgt));
    HitRate(|hits|, |f|);
    if exists k :: 0 <= k < |f| && f[k] >= tgt {
      var k :| 0 <= k < |f| && f[k] >= tgt;
      assert f[k] in hits;
    } else {
      FilterNone(f, AtLeast(tgt));
    }
  }

  /** The 5th and 95th percentile picks of a sorted non-empty list are ordered members. */
  lemma SortedPicks(f: seq<real>)
    requires |f| > 0
    ensures SortAsc(f)[PctIndex(|f|, 5)] <= SortAsc(f)[PctIndex(|f|, 95)]
    ensures SortAsc(f)[PctIndex(|f|, 5)] in f && SortAsc(f)[PctIndex(|f|, 95)] in f
  {
    var sorted := SortAsc(f);
    SortAscSorted(f);
    PctIndexBounds(|f|, 5, 95);
    assert sorted[PctIndex(|f|, 5)] in multiset(sorted);
    assert sorted[PctIndex(|f|, 95)] in multiset(sorted);
  }

  /** A count out of a non-empty total, as a fraction, lies in [0, 1]. */
  lemma HitRate(hits: nat, len: nat)
    requires hits <= len && len >= 1
    ensures 0.0 <= (hits as real) / (len as real) <= 1.0
    ensures (hits as real) / (len as real) > 0.0 <==> hits > 0
  {
  }

  // ---------------------------------------------------------------------------
  // runMonteCarlo
  // ---------------------------------------------------------------------------

  /** `runMonteCarlo(spot, vol, drift, volMult, targets, horizons, simSeed, N)`. The
      source reads `finals[i]` for every target, so it needs at least as many horizons
      as targets. The local `paths` is returned alongside the result. */
  method RunMonteCarlo(spot: real, targets: seq<real>, horizons: seq<int>, n: nat,
                       step: int -> real, tail: (real, int) -> real)
    returns (r: McResult, paths: seq<seq<Point>>)
    requires |targets| <= |horizons|
    ensures r == Simulation(spot, targets, horizons, n, step, tail)
    ensures paths == PreviewPaths(spot, step, MaxDay(horizons), n)
  {
    var maxD := MaxDay(horizons);
    paths := [];
    var finals: seq<seq<real>> := seq(|horizons|, j => []);
    for i := 0 to n
      invariant paths == PreviewPaths(spot, step, maxD, i)
      invariant |finals| == |horizons|
      invariant forall j :: 0 <= j < |horizons| ==> finals[j] == Column(spot, step, maxD, horizons[j], i)
    {
      var path;
      finals, path := SimulatePath(spot, horizons, maxD, i, step, finals);
      if i < PREVIEW_PATHS {
        paths := paths + [path];
      }
    }
    var pctData := Percentiles(paths, spot, maxD);
    r := McResult(pctData, Probs(spot, targets, horizons, finals, tail), finals);
    assert finals == seq(|horizons|, j requires 0 <= j < |horizons| => Column(spot, step, maxD, horizons[j], n));
  }

  /** One iteration of the path loop: walk path `i` day by day, extending its preview and
      pushing its price into every horizon equal to the day. */
  method SimulatePath(spot: real, horizons: seq<int>, maxD: int, i: nat, step: int -> real,
                      finals: seq<seq<real>>)
    returns (finals': seq<seq<real>>, path: seq<Point>)
    requires |finals| == |horizons|
    requires forall j :: 0 <= j < |horizons| ==> finals[j] == Column(spot, step, maxD, horizons[j], i)
    ensures |finals'| == |horizons|
    ensures forall j :: 0 <= j < |horizons| ==> finals'[j] == Column(spot, step, maxD, horizons[j], i + 1)
    ensures path == PathPoints(spot, step, maxD, i, Days(maxD))
  {
    var p := spot;
    path := [Point(0, p)];
    finals' := finals;
    var d := 1;
    while d <= maxD
      invariant 1 <= d <= Days(maxD) + 1
      invariant p == Price(spot, step, maxD, i, d - 1)
      invariant path == PathPoints(spot, step, maxD, i, d - 1)
      invariant |finals'| == |horizons|
      invariant forall j :: 0 <= j < |horizons| ==>
        finals'[j] == Column(spot, step, maxD, horizons[j], i)
          + (if Reached(horizons[j], maxD) && horizons[j] < d then [Price(spot, step, maxD, i, horizons[j])] else [])
    {
      p := p * step(i * maxD + d);
      path := path + [Point(d, p)];
      finals' := RecordDay(finals', horizons, d, p);
      d := d + 1;
    }
  }

  /** `horizons.forEach((h, j) => { if (d === h) finals[j].push(p); })`. */
  method RecordDay(finals: seq<seq<real>>, horizons: seq<int>, d: int, p: real) returns (r: seq<seq<real>>)
    requires |finals| == |horizons|
    ensures |r| == |horizons|
    ensures forall j :: 0 <= j < |horizons| ==> r[j] == finals[j] + (if horizons[j] == d then [p] else [])
  {
    r := finals;
    for j := 0 to |horizons|
      invariant |r| == |horizons|
      invariant forall k :: 0 <= k < j ==> r[k] == finals[k] + (if horizons[k] == d then [p] else [])
      invariant forall k :: j <= k < |horizons| ==> r[k] == finals[k]
    {
      if d == horizons[j] {
        r := r[j := r[j] + [p]];
      }
    }
  }

  /** The percentile loop: one row per `d = 0, 5, 10, …` up to `maxD`. */
  method Percentiles(paths: seq<seq<Point>>, spot: real, maxD: int) returns (pctData: seq<PctPoint>)
    ensures pctData == PctRows(paths, spot, PctCount(maxD))
  {
    pctData := [];
    var d := 0;
    while d <= maxD
      invariant d == 5 * |pctData|
      invariant pctData == PctRows(paths, spot, |pctData|)
      invariant |pctData| > 0 ==> 5 * (|pctData| - 1) <= maxD
      decreases maxD - d + 5
    {
      var ps := SortAsc(PreviewValues(paths, spot, d));
      pctData := pctData + [PctPoint(d, Percentile(ps, 5), Percentile(ps, 50), Percentile(ps, 95))];
      d := d + 5;
    }
    assert |pctData| == PctCount(maxD);
  }

  /** The number of percentile rows: one per `d = 0, 5, 10, …` up to `maxD`. */
  function PctCount(maxD: int): nat {
    if maxD < 0 then 0 else maxD / 5 + 1
  }

  /** What `runMonteCarlo` returns, as a function of its inputs. */
  function Simulation(spot: real, targets: seq<real>, horizons: seq<int>, n: nat,
                      step: int -> real, tail: (real, int) -> real): McResult
    requires |targets| <= |horizons|
  {
    var maxD := MaxDay(horizons);
    var finals := seq(|horizons|, j requires 0 <= j < |horizons| => Column(spot, step, maxD, horizons[j], n));
    McResult(PctRows(PreviewPaths(spot, step, maxD, n), spot, PctCount(maxD)),
             Probs(spot, targets, horizons, finals, tail),
             finals)
  }

  /** What the simulation promises: one probability per target, paired with the horizon
      of the same position; `N` terminal values for every reached horizon and none for
      the others; one percentile row per multiple of 5 up to `max(horizons)`, read from
      the first 50 paths, each of `max(horizons) + 1` points starting at day 0 at the spot
      price. */
  lemma RunMonteCarloShape(spot: real, targets: seq<real>, horizons: seq<int>, n: nat,
                           step: int -> real, tail: (real, int) -> real)
    requires |targets| <= |horizons|
    ensures var r, maxD := Simulation(spot, targets, horizons, n, step, tail), MaxDay(horizons);
      |r.probs| == |targets| && |r.finals| == |horizons|
      && (forall i :: 0 <= i < |targets| ==>
        r.probs[i] == ProbFor(spot, targets[i], r.finals[i], horizons[i], tail(targets[i], horizons[i])))
      && (forall j :: 0 <= j < |horizons| ==> |r.finals[j]| == (if Reached(horizons[j], maxD) then n else 0))
      && (forall c :: 0 <= c < |r.pctData| ==> r.pctData[c].d == 5 * c <= maxD)
      && 5 * |r.pctData| > maxD
    ensures var paths, maxD := PreviewPaths(spot, step, MaxDay(horizons), n), MaxDay(horizons);
      |paths| == MinNat(n, PREVIEW_PATHS)
      && forall k :: 0 <= k < |paths| ==> |paths[k]| == Days(maxD) + 1 && paths[k][0] == Point(0, spot)
  {
    var maxD := MaxDay(horizons);
    var r := Simulation(spot, targets, horizons, n, step, tail);
    forall j | 0 <= j < |horizons|
      ensures |r.finals[j]| == (if Reached(horizons[j], maxD) then n else 0)
    {
      ColumnShape(spot, step, maxD, horizons[j], n);
    }
    var paths := PreviewPaths(spot, step, maxD, n);
    PreviewPathsShape(spot, step, maxD, n);
    forall k | 0 <= k < |paths|
      ensures |paths[k]| == Days(maxD) + 1 && paths[k][0] == Point(0, spot)
    {
      PathPointsShape(spot, step, maxD, k, Days(maxD));
    }
    PctRowsShape(paths, spot, PctCount(maxD));
  }

  lemma {:induction false} PctRowsShape(paths: seq<seq<Point>>, spot: real, c: nat)
    ensures |PctRows(paths, spot, c)| == c
    ensures forall k :: 0 <= k < c ==> PctRows(paths, spot, c)[k] == PctRow(paths, spot, 5 * k)
  {
    if c > 0 {
      PctRowsShape(paths, spot, c - 1);
    }
  }
}
