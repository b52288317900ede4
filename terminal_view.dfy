/** The Polymarket terminal's derived views: the histogram of one horizon's terminal
    values, the category filter over markets, and the per-scenario simulation runs
    (`runSim` and `allRes`). The simulation itself is `MonteCarlo.RunMonteCarlo`; the
    terminal's own copy of the math utilities is assumed to be the dashboard's. */
module TerminalView {
  import opened Common
  import opened Strs
  import opened MonteCarlo

  // ---------------------------------------------------------------------------
  // Histogram
  // ---------------------------------------------------------------------------

  /** A histogram bar: its lower edge and the number of values in it. */
  datatype Bucket = Bucket(r: real, c: nat)

  const BUCKETS: nat := 20

  /** `(max − min) / 20 || 1`. */
  function BucketWidth(lo: real, hi: real): (sz: real)
    requires lo <= hi
    ensures sz > 0.0
    ensures hi > lo ==> sz == (hi - lo) / 20.0
    ensures hi == lo ==> sz == 1.0
  {
    if (hi - lo) / 20.0 == 0.0 then 1.0 else (hi - lo) / 20.0
  }

  /** The lower edge of bucket `i`. */
  function Edge(lo: real, sz: real, i: nat): real {
    lo + (i as real) * sz
  }

  /** Bucket `i` is the half-open interval from its edge to the next one. */
  function InBucket(lo: real, sz: real, i: nat): real -> bool {
    x => x >= Edge(lo, sz, i) && x < Edge(lo, sz, i + 1)
  }

  /** The histogram of `finals[sel]`: empty for a missing or empty list, otherwise 20
      equal-width half-open buckets from the minimum. */
  function Hist(finals: seq<seq<real>>, sel: int): (h: seq<Bucket>)
    ensures !(0 <= sel < |finals|) || |finals[sel]| == 0 <==> h == []
    ensures h != [] ==> |h| == BUCKETS
  {
    if !(0 <= sel < |finals|) || |finals[sel]| == 0 then [] else Buckets(finals[sel])
  }

  /** The 20 buckets of a non-empty list of values. */
  function Buckets(f: seq<real>): (h: seq<Bucket>)
    requires |f| > 0
    ensures |h| == BUCKETS
  {
    var lo, hi := SeqMin(f), SeqMax(f);
    var sz := BucketWidth(lo, hi);
    seq(BUCKETS, i requires 0 <= i < BUCKETS => Bucket(Edge(lo, sz, i), Count(f, InBucket(lo, sz, i))))
  }

  /** Edges grow with the bucket number. */
  lemma EdgeMono(lo: real, sz: real, i: nat, j: nat)
    requires sz > 0.0 && i <= j
    ensures Edge(lo, sz, i) <= Edge(lo, sz, j)
  {
    assert (j as real) * sz - (i as real) * sz == ((j - i) as real) * sz;
  }

  /** Distinct buckets share no value. */
  lemma BucketsDisjoint(lo: real, sz: real, i: nat, j: nat, x: real)
    requires sz > 0.0 && i < j
    ensures !(InBucket(lo, sz, i)(x) && InBucket(lo, sz, j)(x))
  {
    EdgeMono(lo, sz, i + 1, j);
  }

  /** How many of buckets `0..k-1` contain `x`. */
  function Hits(lo: real, sz: real, x: real, k: nat): nat {
    if k == 0 then 0 else Hits(lo, sz, x, k - 1) + (if InBucket(lo, sz, k - 1)(x) then 1 else 0)
  }

  /** A value at or above edge `j` is in none of the buckets below `j`. */
  lemma {:induction false} HitsBelow(lo: real, sz: real, x: real, j: nat)
    requires sz > 0.0 && x >= Edge(lo, sz, j)
    ensures Hits(lo, sz, x, j) == 0
  {
    if j > 0 {
      EdgeMono(lo, sz, j - 1, j);
      HitsBelow(lo, sz, x, j - 1);
    }
  }

  /** A value is in at most one bucket. */
  lemma {:induction false} HitsAtMostOne(lo: real, sz: real, x: real, k: nat)
    requires sz > 0.0
    ensures Hits(lo, sz, x, k) <= 1
  {
    if k > 0 {
      HitsAtMostOne(lo, sz, x, k - 1);
      if InBucket(lo, sz, k - 1)(x) {
        HitsBelow(lo, sz, x, k - 1);
      }
    }
  }

  /** The total of the first `k` buckets' counts. */
  function CountsUpTo(f: seq<real>, lo: real, sz: real, k: nat): nat {
    if k == 0 then 0 else CountsUpTo(f, lo, sz, k - 1) + Count(f, InBucket(lo, sz, k - 1))
  }

  /** Counting bucket by bucket is counting value by value. */
  lemma {:induction false} CountsUpToSplit(f: seq<real>, lo: real, sz: real, k: nat)
    requires |f| > 0
    ensures CountsUpTo(f, lo, sz, k) == Hits(lo, sz, f[0], k) + CountsUpTo(f[1..], lo, sz, k)
  {
    if k > 0 {
      CountsUpToSplit(f, lo, sz, k - 1);
    }
  }

  /** The buckets together count each value at most once. */
  lemma {:induction false} CountsUpToBound(f: seq<real>, lo: real, sz: real, k: nat)
    requires sz > 0.0
    ensures CountsUpTo(f, lo, sz, k) <= |f|
    decreases |f|
  {
    if f == [] {
      CountsUpToEmpty(f, lo, sz, k);
    } else {
      CountsUpToSplit(f, lo, sz, k);
      HitsAtMostOne(lo, sz, f[0], k);
      CountsUpToBound(f[1..], lo, sz, k);
    }
  }

  lemma {:induction false} CountsUpToEmpty(f: seq<real>, lo: real, sz: real, k: nat)
    requires f == []
    ensures CountsUpTo(f, lo, sz, k) == 0
  {
    if k > 0 {
      CountsUpToEmpty(f, lo, sz, k - 1);
    }
  }

  /** The sum of the first `k` bars' counts. */
  function TotalCount(h: seq<Bucket>, k: nat): nat
    requires k <= |h|
  {
    if k == 0 then 0 else TotalCount(h, k - 1) + h[k - 1].c
  }

  /** The edge `i` twentieths of the way from `lo` to `hi`. */
  function Spread(lo: real, hi: real, i: nat): real {
    lo + (i as real) * ((hi - lo) / 20.0)
  }

  /** Bar `i` of a non-empty histogram starts `i` twentieths of the way from the minimum
      to the maximum, or at `min + i` when all values are equal. */
  lemma HistEdge(f: seq<real>, i: nat)
    requires |f| > 0 && i < BUCKETS
    ensures SeqMax(f) > SeqMin(f) ==> Buckets(f)[i].r == Spread(SeqMin(f), SeqMax(f), i)
    ensures SeqMax(f) == SeqMin(f) ==> Buckets(f)[i].r == SeqMin(f) + (i as real)
  {
    var lo, hi := SeqMin(f), SeqMax(f);
    BucketEdge(f, i);
    if hi > lo {
      EdgeSpread(lo, hi, i);
    } else if hi == lo {
      EdgeUnit(lo, i);
    }
  }

  lemma BucketEdge(f: seq<real>, i: nat)
    requires |f| > 0 && i < BUCKETS
    ensures Buckets(f)[i].r == Edge(SeqMin(f), BucketWidth(SeqMin(f), SeqMax(f)), i)
  {
  }

  lemma EdgeUnit(lo: real, i: nat)
    ensures Edge(lo, BucketWidth(lo, lo), i) == lo + (i as real)
  {
  }

  lemma EdgeSpread(lo: real, hi: real, i: nat)
    requires hi > lo
    ensures Edge(lo, BucketWidth(lo, hi), i) == Spread(lo, hi, i)
  {
  }

  /** The bars' counts add up to at most the number of values: no value is counted
      twice. */
  lemma HistTotal(f: seq<real>)
    requires |f| > 0
    ensures TotalCount(Buckets(f), BUCKETS) <= |f|
  {
    var lo := SeqMin(f);
    var sz := BucketWidth(lo, SeqMax(f));
    TotalIsCounts(Buckets(f), f, lo, sz, BUCKETS);
    CountsUpToBound(f, lo, sz, BUCKETS);
  }

  lemma {:induction false} TotalIsCounts(h: seq<Bucket>, f: seq<real>, lo: real, sz: real, k: nat)
    requires k <= |h|
    requires forall i :: 0 <= i < |h| ==> h[i].c == Count(f, InBucket(lo, sz, i))
    ensures TotalCount(h, k) == CountsUpTo(f, lo, sz, k)
  {
    if k > 0 {
      TotalIsCounts(h, f, lo, sz, k - 1);
    }
  }

  /** When the values spread, the maximum falls in no bucket (the last bucket is open at
      the top). */
  lemma HistDropsMax(f: seq<real>)
    requires |f| > 0 && SeqMax(f) > SeqMin(f)
    ensures var lo, hi := SeqMin(f), SeqMax(f);
      forall i :: 0 <= i < BUCKETS ==> !InBucket(lo, BucketWidth(lo, hi), i)(hi)
  {
    var lo, hi := SeqMin(f), SeqMax(f);
    var sz := BucketWidth(lo, hi);
    forall i | 0 <= i < BUCKETS ensures !InBucket(lo, sz, i)(hi) {
      EdgeMono(lo, sz, i + 1, BUCKETS);
    }
  }

  /** When all values are equal, bucket 0 holds them all and the others none. */
  lemma HistAllEqual(f: seq<real>)
    requires |f| > 0 && SeqMax(f) == SeqMin(f)
    ensures var h := Buckets(f);
      h[0].c == |f| && forall i :: 1 <= i < BUCKETS ==> h[i].c == 0
  {
    var lo := SeqMin(f);
    var sz := BucketWidth(lo, SeqMax(f));
    forall x | x in f ensures InBucket(lo, sz, 0)(x) {
      assert sz == 1.0;
      assert x == lo;
      assert Edge(lo, sz, 0) == lo && Edge(lo, sz, 1) == lo + 1.0;
    }
    FilterAll(f, InBucket(lo, sz, 0));
    CountIsFilterLength(f, InBucket(lo, sz, 0));
    forall i | 1 <= i < BUCKETS ensures Count(f, InBucket(lo, sz, i)) == 0 {
      EdgeMono(lo, sz, 1, i);
      assert forall k :: 0 <= k < |f| ==> f[k] in f;
      FilterNone(f, InBucket(lo, sz, i));
      CountIsFilterLength(f, InBucket(lo, sz, i));
    }
  }

  // ---------------------------------------------------------------------------
  // Category filter
  // ---------------------------------------------------------------------------

  /** A market as the terminal sees it; a missing field is `None`. */
  datatype TerminalMarket = TerminalMarket(question: Option<string>, category: Option<string>)

  /** `m.category?.toLowerCase().includes(c) || m.question?.toLowerCase().includes(c)`. */
  function Mentions(c: string): TerminalMarket -> bool {
    (m: TerminalMarket) => (m.category.Some? && Contains(Lower(m.category.value), c))
         || (m.question.Some? && Contains(Lower(m.question.value), c))
  }

  function TerminalFilter(markets: seq<TerminalMarket>, c: string): seq<TerminalMarket> {
    if c == "all" then markets else Filter(markets, Mentions(c))
  }

  /** `all` returns the list unchanged; any other category keeps exactly the markets whose
      lower-cased category or question contains it, and keeping them a second time changes
      nothing. */
  lemma TerminalFilterKeeps(markets: seq<TerminalMarket>, c: string)
    ensures c == "all" ==> TerminalFilter(markets, c) == markets
    ensures c != "all" ==>
      (forall m :: m in TerminalFilter(markets, c) <==> m in markets && Mentions(c)(m))
      && TerminalFilter(TerminalFilter(markets, c), c) == TerminalFilter(markets, c)
  {
    if c != "all" {
      FilterIdempotent(markets, Mentions(c));
    }
  }

  // ---------------------------------------------------------------------------
  // runSim and allRes
  // ---------------------------------------------------------------------------

  /** The simulation inputs of a live asset. */
  datatype LiveAsset = LiveAsset(spot: real, vol: real, targets: seq<real>)

  /** A market scenario. */
  datatype Scenario = Scenario(drift: real, volMult: real)

  /** `horizons` of the terminal: a quarter, a half and a full year, in days. */
  const HORIZONS: seq<int> := [90, 180, 365]

  /** `runMonteCarlo`'s default path count. */
  const N_PATHS: nat := 5000

  /** The empty result `runSim` gives for an unknown asset. */
  const EMPTY_RESULT: McResult := McResult([], [], [])

  /** Every asset has no more targets than there are horizons. */
  predicate AssetsOk(assets: map<string, LiveAsset>) {
    forall k :: k in assets ==> |assets[k].targets| <= |HORIZONS|
  }

  /** What `runSim(key, sc)` returns. `stepOf` and `tailOf` give the simulation's step and
      normal-CDF value for an asset under a scenario. */
  function SimFor(assets: map<string, LiveAsset>, scenarios: map<string, Scenario>, key: string, sc: string,
                  stepOf: (LiveAsset, Scenario) -> int -> real,
                  tailOf: (LiveAsset, Scenario) -> (real, int) -> real): McResult
    requires AssetsOk(assets) && sc in scenarios
  {
    if key !in assets then EMPTY_RESULT
    else
      var a, s := assets[key], scenarios[sc];
      Simulation(a.spot, a.targets, HORIZONS, N_PATHS, stepOf(a, s), tailOf(a, s))
  }

  /** `runSim(key, sc)`: the empty result for an unknown asset, otherwise the simulation
      of that asset under that scenario. */
  method RunSim(assets: map<string, LiveAsset>, scenarios: map<string, Scenario>, key: string, sc: string,
                stepOf: (LiveAsset, Scenario) -> int -> real,
                tailOf: (LiveAsset, Scenario) -> (real, int) -> real)
    returns (r: McResult)
    requires AssetsOk(assets) && sc in scenarios
    ensures r == SimFor(assets, scenarios, key, sc, stepOf, tailOf)
    ensures key !in assets ==> r.pctData == [] && r.probs == [] && r.finals == []
    ensures key in assets ==> |r.probs| == |assets[key].targets| && |r.finals| == |HORIZONS|
  {
    if key !in assets {
      return EMPTY_RESULT;
    }
    var a := assets[key];
    var s := scenarios[sc];
    RunMonteCarloShape(a.spot, a.targets, HORIZONS, N_PATHS, stepOf(a, s), tailOf(a, s));
    var paths;
    r, paths := RunMonteCarlo(a.spot, a.targets, HORIZONS, N_PATHS, stepOf(a, s), tailOf(a, s));
  }

  /** `allRes`: one entry per scenario key, each the run of the selected asset under that
      scenario. `keys` is `Object.keys(scenarios)`. */
  method AllRes(assets: map<string, LiveAsset>, scenarios: map<string, Scenario>, keys: seq<string>, asset: string,
                stepOf: (LiveAsset, Scenario) -> int -> real,
                tailOf: (LiveAsset, Scenario) -> (real, int) -> real)
    returns (all: map<string, McResult>)
    requires AssetsOk(assets)
    requires forall k :: k in keys <==> k in scenarios
    ensures all.Keys == scenarios.Keys
    ensures forall k :: k in all ==> all[k] == SimFor(assets, scenarios, asset, k, stepOf, tailOf)
  {
    all := map[];
    for i := 0 to |keys|
      invariant forall k :: k in all <==> k in keys[..i]
      invariant forall k :: k in all ==> k in scenarios && all[k] == SimFor(assets, scenarios, asset, k, stepOf, tailOf)
    {
      var r := RunSim(assets, scenarios, asset, keys[i], stepOf, tailOf);
      all := all[keys[i] := r];
    }
    assert keys[..|keys|] == keys;
  }
}
