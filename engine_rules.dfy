/** The decision rules of the C trading engine as values: the random-walk step, the
    momentum signal, balance tiers, trade selection, and the position's exit and
    trailing-stop rule. `float` is modelled as `real`. */
module EngineRules {
  import opened Common

  const MAX_ASSETS: nat := 64
  const MAX_TRADES: nat := 100
  const TICK_MODULUS: nat := 0x1_0000_0000  // `tick` is a uint32_t

  /** `tick++` on a uint32_t: one more, wrapping to 0 after 2^32 - 1. */
  function NextTick(t: nat): (r: nat)
    requires t < TICK_MODULUS
    ensures r < TICK_MODULUS
    ensures t + 1 < TICK_MODULUS ==> r == t + 1
    ensures t + 1 == TICK_MODULUS ==> r == 0
  {
    (t + 1) % TICK_MODULUS
  }

  /** Trade record kinds; the C code stores them as 0, 1 and 2. */
  datatype TradeType = Buy | Win | Stop {
    function Code(): (c: nat)
      ensures c <= 2
    {
      match this
      case Buy => 0
      case Win => 1
      case Stop => 2
    }
  }

  datatype Trade = Trade(symbol: string, pnl: real, kind: TradeType)

  /** The engine's open position; `assetIdx == -1` means there is none. */
  datatype Position = Position(assetIdx: int, entryPrice: real, size: real, stopLoss: real, takeProfit: real)

  /** What recording a trade appends to the log: one entry while the 100-entry log has room. */
  function Recorded(tradeCount: nat, symbol: string, pnl: real, kind: TradeType): (r: seq<Trade>)
    ensures |r| == (if tradeCount < MAX_TRADES then 1 else 0)
  {
    if tradeCount < MAX_TRADES then [Trade(Truncate7(symbol), pnl, kind)] else []
  }

  /** `strncpy(dst, src, 7)` into an 8-byte buffer: at most 7 characters survive. */
  function Truncate7(s: string): (r: string)
    ensures |r| <= 7 && |r| <= |s| && r == s[..|r|]
    ensures |s| <= 7 ==> r == s
  {
    if |s| <= 7 then s else s[..7]
  }

  // ---------------------------------------------------------------------------
  // Per-tick random walk
  // ---------------------------------------------------------------------------

  /** The `rand()` draws one asset consumes in one tick: `roll` is `rand() % 100`, the
      other two are `rand() / RAND_MAX`. */
  datatype TickDraw = TickDraw(roll: nat, trendDraw: real, shockDraw: real) {
    predicate InRange() {
      roll < 100 && 0.0 <= trendDraw <= 1.0 && 0.0 <= shockDraw <= 1.0
    }
  }

  /** The trend after a tick: re-drawn with probability 5/100, otherwise kept. */
  function NextTrend(trend: real, d: TickDraw): (r: real)
    ensures d.roll >= 5 ==> r == trend
    ensures d.roll < 5 && d.InRange() ==> -0.0036 <= r <= 0.0044
  {
    if d.roll < 5 then (d.trendDraw - 0.45) * 0.008 else trend
  }

  /** `fminf(fmaxf(p, lo), hi)`. */
  function Clamp(p: real, lo: real, hi: real): (r: real)
    requires lo <= hi
    ensures lo <= r <= hi
    ensures lo <= p <= hi ==> r == p
    ensures p < lo ==> r == lo
    ensures p > hi ==> r == hi
  {
    Min(Max(p, lo), hi)
  }

  /** One step of the bounded random walk: drift 0.0001, the asset's trend and a
      shock in [-0.006, 0.006], kept inside [0.7·base, 1.5·base]. */
  function StepPrice(current: real, trend: real, base: real, shockDraw: real): (r: real)
    requires base >= 0.0
    ensures 0.7 * base <= r <= 1.5 * base
    ensures var raw := current * (1.0 + (0.0001 + trend + (shockDraw - 0.5) * 0.012));
            0.7 * base <= raw <= 1.5 * base ==> r == raw
  {
    Clamp(current * (1.0 + (0.0001 + trend + (shockDraw - 0.5) * 0.012)), base * 0.7, base * 1.5)
  }

  // ---------------------------------------------------------------------------
  // Momentum
  // ---------------------------------------------------------------------------

  predicate AllPositive(s: seq<real>) {
    forall k :: 0 <= k < |s| ==> s[k] > 0.0
  }

  lemma MeanPositive(s: seq<real>, n: nat)
    requires AllPositive(s) && |s| > 0 && n >= 1
    ensures Mean(LastN(s, n)) > 0.0
  {
    var lo := SeqMin(s);
    assert lo > 0.0;
    assert AllWithin(s, lo, SeqMax(s)) by {
      forall k | 0 <= k < |s| ensures lo <= s[k] <= SeqMax(s) { assert s[k] in s; }
    }
    AllWithinLastN(s, n, lo, SeqMax(s));
    MeanWithin(LastN(s, n), lo, SeqMax(s));
  }

  /** `calculate_momentum` on the retained prices: 0 with fewer than 10 of them, otherwise
      the relative distance of the current price from the mean of the last 10. */
  function MomentumOf(retained: seq<real>, current: real): (m: real)
    requires AllPositive(retained)
    ensures |retained| < 10 ==> m == 0.0
  {
    if |retained| < 10 then 0.0
    else
      MeanPositive(retained, 10);
      var avg := Mean(LastN(retained, 10));
      (current - avg) / avg
  }

  /** With 10 or more prices, the momentum is the current price's distance from the given
      10-price mean, relative to that (positive) mean. */
  lemma MomentumFromMean(retained: seq<real>, current: real, avg: real)
    requires AllPositive(retained) && |retained| >= 10 && avg == Mean(LastN(retained, 10))
    ensures avg > 0.0 && MomentumOf(retained, current) == (current - avg) / avg
  {
    MeanPositive(retained, 10);
  }

  /** Momentum above a threshold means the price sits that fraction above the 10-price mean. */
  lemma MomentumAbove(retained: seq<real>, current: real, t: real)
    requires AllPositive(retained) && |retained| >= 10
    ensures MomentumOf(retained, current) > t <==> current > (1.0 + t) * Mean(LastN(retained, 10))
  {
    MeanPositive(retained, 10);
    var avg := Mean(LastN(retained, 10));
    assert MomentumOf(retained, current) == (current - avg) / avg;
    assert (current - avg) / avg > t <==> current - avg > t * avg;
  }

  /** With 10 or more prices, the momentum's sign is the side of the 10-price mean the
      current price lies on. */
  lemma MomentumSign(retained: seq<real>, current: real)
    requires AllPositive(retained) && |retained| >= 10
    ensures MomentumOf(retained, current) > 0.0 <==> current > Mean(LastN(retained, 10))
    ensures MomentumOf(retained, current) < 0.0 <==> current < Mean(LastN(retained, 10))
  {
    MeanPositive(retained, 10);
    var avg := Mean(LastN(retained, 10));
    assert MomentumOf(retained, current) == (current - avg) / avg;
  }

  // ---------------------------------------------------------------------------
  // Balance tiers and the position rules
  // ---------------------------------------------------------------------------

  /** Minimum momentum a trade must strictly exceed: stricter as the balance grows. */
  function Threshold(balance: real): (t: real)
    ensures t == 0.015 || t == 0.018 || t == 0.022
    ensures balance < 2.0 <==> t == 0.015
    ensures balance >= 10.0 <==> t == 0.022
  {
    if balance < 2.0 then 0.015 else if balance < 10.0 then 0.018 else 0.022
  }

  /** Fraction of the balance `find_best_trade` assumes when checking affordability. */
  function ScanFraction(balance: real): (f: real)
    ensures 0.30 <= f <= 0.70
  {
    if balance < 2.0 then 0.70 else if balance < 5.0 then 0.50 else 0.30
  }

  lemma DivBelow(x: real, p: real, t: real)
    requires p > 0.0
    ensures x / p < t <==> x < t * p
  {
    assert x == (x / p) * p;
  }

  /** What `find_best_trade` looks at for one asset: its number of retained prices, its
      current price and its momentum. */
  datatype Candidate = Candidate(count: nat, price: real, strength: real)

  /** The filters `find_best_trade` applies before comparing momentum. The affordability
      test `size / price < 0.01` is written `size < 0.01·price`, the same for positive prices. */
  predicate Eligible(c: Candidate, i: int, bal: real, lastTraded: int) {
    var size := ScanSize(bal);
    !(bal > 5.0 && i == lastTraded)
    && c.count >= 10
    && !(c.price > size * 0.5)
    && !(size < 0.01 * c.price)
  }

  /** The filters as `find_best_trade` applies them to asset `i`, in the same order and with
      the affordability test written as a division. Only the count and price are read. */
  method Screen(count: nat, price: real, i: int, bal: real, lastTraded: int) returns (ok: bool)
    requires price > 0.0
    ensures ok <==> Eligible(Candidate(count, price, 0.0), i, bal, lastTraded)
  {
    if bal > 5.0 && i == lastTraded {
      return false;
    }
    if count < 10 {
      return false;
    }
    var positionSize := ScanSize(bal);
    if price > positionSize * 0.5 {
      return false;
    }
    DivBelow(positionSize, price, 0.01);
    if positionSize / price < 0.01 {
      return false;
    }
    return true;
  }

  /** `r` is what `find_best_trade` must return: -1 when no eligible asset's momentum
      strictly exceeds the tier threshold, else the eligible asset of greatest momentum,
      the earliest one among equals. */
  predicate IsBest(cs: seq<Candidate>, bal: real, lastTraded: int, r: int) {
    -1 <= r < |cs|
    && (r >= 0 ==> Eligible(cs[r], r, bal, lastTraded) && cs[r].strength > Threshold(bal))
    && (forall j :: 0 <= j < |cs| && Eligible(cs[j], j, bal, lastTraded) ==>
          cs[j].strength <= (if r >= 0 then cs[r].strength else Threshold(bal)))
    && (r >= 0 ==> forall j :: 0 <= j < r && Eligible(cs[j], j, bal, lastTraded) ==>
          cs[j].strength < cs[r].strength)
  }

  /** Where `find_best_trade`'s loop stands after the first `n` candidates: the index
      picked so far (-1 for none) and the strength a later candidate must exceed. */
  datatype Scan = Scan(best: int, toBeat: real)

  function ScanUpTo(cs: seq<Candidate>, bal: real, lastTraded: int, n: nat): (s: Scan)
    requires n <= |cs|
    ensures -1 <= s.best < n
    decreases n
  {
    if n == 0 then Scan(-1, Threshold(bal))
    else
      var prev := ScanUpTo(cs, bal, lastTraded, n - 1);
      if Eligible(cs[n - 1], n - 1, bal, lastTraded) && cs[n - 1].strength > prev.toBeat
      then Scan(n - 1, cs[n - 1].strength)
      else prev
  }

  /** After `n` candidates the scan holds the best of them: the threshold while nothing
      beat it, otherwise the strongest eligible candidate so far, the earliest among equals. */
  lemma {:induction false} ScanUpToBest(cs: seq<Candidate>, bal: real, lastTraded: int, n: nat)
    requires n <= |cs|
    ensures var s := ScanUpTo(cs, bal, lastTraded, n);
            (s.best == -1 ==> s.toBeat == Threshold(bal))
            && (s.best >= 0 ==> Eligible(cs[s.best], s.best, bal, lastTraded)
                                && cs[s.best].strength == s.toBeat > Threshold(bal))
            && (forall j :: 0 <= j < n && Eligible(cs[j], j, bal, lastTraded) ==> cs[j].strength <= s.toBeat)
            && (forall j :: 0 <= j < s.best && Eligible(cs[j], j, bal, lastTraded) ==> cs[j].strength < s.toBeat)
    decreases n
  {
    if n > 0 {
      ScanUpToBest(cs, bal, lastTraded, n - 1);
    }
  }

  /** What `find_best_trade` returns: where the scan stands after every candidate. */
  function BestTrade(cs: seq<Candidate>, bal: real, lastTraded: int): (r: int)
    ensures -1 <= r < |cs|
  {
    ScanUpTo(cs, bal, lastTraded, |cs|).best
  }

  /** The scan returns the one index `IsBest` allows. */
  lemma BestTradeIsBest(cs: seq<Candidate>, bal: real, lastTraded: int)
    ensures IsBest(cs, bal, lastTraded, BestTrade(cs, bal, lastTraded))
  {
    ScanUpToBest(cs, bal, lastTraded, |cs|);
  }

  /** The selection rule leaves no choice: at most one index meets it. */
  lemma BestIsUnique(cs: seq<Candidate>, bal: real, lastTraded: int, r1: int, r2: int)
    requires IsBest(cs, bal, lastTraded, r1) && IsBest(cs, bal, lastTraded, r2)
    ensures r1 == r2
  {
  }

  /** The position size `find_best_trade` checks affordability against. */
  function ScanSize(bal: real): (size: real)
    ensures bal >= 0.0 ==> 0.30 * bal <= size <= 0.70 * bal
  {
    bal * ScanFraction(bal)
  }

  /** Fraction of the balance `open_position` commits: 0.70, 0.50, 0.30 or 0.15. */
  function OpenFraction(balance: real): (f: real)
    ensures 0.15 <= f <= 0.70
    ensures balance >= 10.0 <==> f == 0.15
  {
    if balance < 2.0 then 0.70 else if balance < 5.0 then 0.50 else if balance < 10.0 then 0.30 else 0.15
  }

  /** A richer account never commits a larger fraction. */
  lemma OpenFractionAntitone(b1: real, b2: real)
    requires b1 <= b2
    ensures OpenFraction(b1) >= OpenFraction(b2)
  {
    if b2 < 2.0 {
    } else if b2 < 5.0 {
      assert b1 < 5.0;
    } else if b2 < 10.0 {
      assert b1 < 10.0;
    }
  }

  /** The position `open_position` creates on an asset at `price`, or `None` when the
      size `balance·OpenFraction(balance)` is below 0.001. */
  function Opened(idx: int, price: real, balance: real): (p: Option<Position>)
    ensures p.None? <==> balance * OpenFraction(balance) < 0.001
    ensures p.Some? ==> p.value.assetIdx == idx && p.value.entryPrice == price
                        && p.value.size == balance * OpenFraction(balance) >= 0.001
    ensures p.Some? && price > 0.0 ==> p.value.stopLoss < p.value.entryPrice < p.value.takeProfit
  {
    var size := balance * OpenFraction(balance);
    if size < 0.001 then None else Some(Position(idx, price, size, price * 0.985, price * 1.045))
  }

  /** Any balance the engine trades with (above 0.5) is large enough to open a position. */
  lemma OpensAboveFloor(idx: int, price: real, balance: real)
    requires balance > 0.5
    ensures Opened(idx, price, balance).Some?
  {
    assert OpenFraction(balance) >= 0.15;
    assert balance * OpenFraction(balance) >= 0.5 * 0.15;
  }

  /** The profit or loss of closing `pos` at `exitPrice`: `(exit - entry)·size`. */
  function Pnl(pos: Position, exitPrice: real): (pnl: real)
    ensures pos.size >= 0.0 ==> (pnl >= 0.0 <==> exitPrice >= pos.entryPrice || pos.size == 0.0)
  {
    (exitPrice - pos.entryPrice) * pos.size
  }

  /** `fmaxf(0.5, balance + pnl)`. */
  function ClosedBalance(balance: real, pnl: real): (b: real)
    ensures b >= 0.5
    ensures balance + pnl >= 0.5 ==> b == balance + pnl
    ensures balance + pnl < 0.5 ==> b == 0.5
  {
    Max(0.5, balance + pnl)
  }

  /** What `update_position` does with an open position at the current price. */
  datatype Exit = Hold(stopLoss: real) | Close(exitPrice: real, kind: TradeType)

  function Evaluate(pos: Position, current: real): (e: Exit)
    requires pos.entryPrice > 0.0
    ensures e.Close? <==> current <= pos.stopLoss || current >= pos.takeProfit
    ensures e.Close? ==> e.exitPrice == current
    ensures e.Close? ==> (e.kind == Stop <==> current <= pos.stopLoss) && e.kind != Buy
    ensures e.Hold? ==> e.stopLoss >= pos.stopLoss
    ensures e.Hold? && e.stopLoss != pos.stopLoss ==>
              e.stopLoss == 0.97 * current && current > 1.02 * pos.entryPrice
    ensures e.Hold? && current > 1.02 * pos.entryPrice ==>
              e.stopLoss == (if 0.97 * current > pos.stopLoss then 0.97 * current else pos.stopLoss)
    ensures e.Hold? && current <= 1.02 * pos.entryPrice ==> e.stopLoss == pos.stopLoss
  {
    if current <= pos.stopLoss then Close(current, Stop)
    else if current >= pos.takeProfit then Close(current, Win)
    else
      var pnlPct := (current - pos.entryPrice) / pos.entryPrice;
      if pnlPct > 0.02 && current * 0.97 > pos.stopLoss then Hold(current * 0.97) else Hold(pos.stopLoss)
  }

  /** A position that is held keeps a stop below the price, so holding again raises it monotonically. */
  lemma {:induction false} StopNeverLowered(pos: Position, prices: seq<real>)
    requires pos.entryPrice > 0.0
    ensures HoldAll(pos, prices).stopLoss >= pos.stopLoss
    decreases |prices|
  {
    if prices != [] {
      var e := Evaluate(pos, prices[0]);
      if e.Hold? {
        StopNeverLowered(pos.(stopLoss := e.stopLoss), prices[1..]);
      }
    }
  }

  /** The position after a run of ticks at the given prices, stopping at the first exit. */
  function HoldAll(pos: Position, prices: seq<real>): Position
    requires pos.entryPrice > 0.0
    decreases |prices|
  {
    if prices == [] then pos
    else match Evaluate(pos, prices[0])
      case Close(_, _) => pos
      case Hold(stop) => HoldAll(pos.(stopLoss := stop), prices[1..])
  }

  // ---------------------------------------------------------------------------
  // The books: position, balance and trade log
  // ---------------------------------------------------------------------------

  /** The part of the engine the position functions change: the open position, the
      balance and the trades recorded so far. */
  datatype Books = Books(position: Position, balance: real, log: seq<Trade>)

  /** `close_position` on the books: with a position open, book `(exit - entry)·size`
      with the 0.5 floor, record the exit while the log has room, and clear the position. */
  function CloseBooks(b: Books, symbol: string, exitPrice: real, kind: TradeType): (r: Books)
    ensures b.position.assetIdx < 0 ==> r == b
    ensures b.position.assetIdx >= 0 ==>
              r.position == b.position.(assetIdx := -1)
              && r.balance == ClosedBalance(b.balance, Pnl(b.position, exitPrice))
              && r.log == b.log + Recorded(|b.log|, symbol, Pnl(b.position, exitPrice), kind)
    ensures b.log <= r.log && (|b.log| <= MAX_TRADES ==> |r.log| <= MAX_TRADES)
    ensures b.balance >= 0.5 ==> r.balance >= 0.5
  {
    if b.position.assetIdx < 0 then b
    else
      var pnl := Pnl(b.position, exitPrice);
      Books(b.position.(assetIdx := -1), ClosedBalance(b.balance, pnl), b.log + Recorded(|b.log|, symbol, pnl, kind))
  }

  /** `open_position` on the books, for an asset at `price`: the position `Opened` gives,
      and a BUY recorded while the log has room; a size below 0.001 changes nothing. */
  function OpenBooks(b: Books, idx: int, price: real, symbol: string): (r: Books)
    ensures Opened(idx, price, b.balance).None? ==> r == b
    ensures Opened(idx, price, b.balance).Some? ==>
              r.position == Opened(idx, price, b.balance).value
              && r.log == b.log + Recorded(|b.log|, symbol, 0.0, Buy)
    ensures r.balance == b.balance
    ensures b.log <= r.log && (|b.log| <= MAX_TRADES ==> |r.log| <= MAX_TRADES)
  {
    match Opened(idx, price, b.balance)
    case None => b
    case Some(p) => Books(p, b.balance, b.log + Recorded(|b.log|, symbol, 0.0, Buy))
  }

  /** `update_position` on the books, the position's asset trading at `current`: exit at
      `current` when a level is crossed, otherwise keep the position with the stop
      `Evaluate` gives. Without a position, nothing. */
  function UpdateBooks(b: Books, symbol: string, current: real): (r: Books)
    requires b.position.assetIdx >= 0 ==> b.position.entryPrice > 0.0
    ensures b.position.assetIdx < 0 ==> r == b
    ensures b.position.assetIdx >= 0 && Evaluate(b.position, current).Hold? ==>
              r.balance == b.balance && r.log == b.log
              && r.position == b.position.(stopLoss := Evaluate(b.position, current).stopLoss)
              && r.position.stopLoss >= b.position.stopLoss
    ensures b.position.assetIdx >= 0 && Evaluate(b.position, current).Close? ==>
              r == CloseBooks(b, symbol, current, Evaluate(b.position, current).kind)
              && r.position.assetIdx == -1
    ensures b.log <= r.log && (|b.log| <= MAX_TRADES ==> |r.log| <= MAX_TRADES)
    ensures b.balance >= 0.5 ==> r.balance >= 0.5
  {
    if b.position.assetIdx < 0 then b
    else match Evaluate(b.position, current)
      case Hold(stop) => b.(position := b.position.(stopLoss := stop))
      case Close(exitPrice, kind) => CloseBooks(b, symbol, exitPrice, kind)
  }
}
