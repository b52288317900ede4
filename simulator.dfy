/** The browser trading simulator: thirteen symbols walk randomly, one long position at a
    time is opened on the strongest ten-tick momentum and closed at a stop or a target.
    Each React effect of the simulator is a method of `Simulator`; every `Math.random()`
    draw is a parameter. A symbol is represented by its index in `SYMS` (the symbols are
    distinct object keys), so each per-symbol object of the source is a sequence aligned
    with `SYMS`. */
module TradingSimulator {
  import opened Common

  // ---------------------------------------------------------------------------
  // Constants
  // ---------------------------------------------------------------------------

  /** `Object.keys(ASSETS)`, in declaration order. */
  const SYMS: seq<string> := ["NAS100", "SP500", "US30", "XAU", "XAG", "AAPL", "MSFT", "GOOGL", "NVDA", "TSLA", "META", "COIN", "PLTR"]

  /** `ASSETS[sym].price` for each symbol of `SYMS`, in the same order. */
  const BASE_PRICES: seq<real> := [21500.0, 6000.0, 43800.0, 2650.0, 31.0, 243.0, 418.0, 192.0, 140.0, 380.0, 595.0, 265.0, 71.0]

  const HISTORY_CAP: nat := 50
  const START_BALANCE: real := 100.0
  /** At or below this balance the player is busted; a stop-out never goes below it. */
  const BALANCE_FLOOR: real := 10.0
  /** At or above this balance the player has won. */
  const BALANCE_GOAL: real := 10000.0

  /** The symbols the simulator trades and their base prices. */
  datatype Table = Table(syms: seq<string>, base: seq<real>)

  const ASSETS: Table := Table(SYMS, BASE_PRICES)

  /** One base price per symbol, each positive. */
  predicate TableOk(t: Table) {
    |t.base| == |t.syms| && forall i :: 0 <= i < |t.base| ==> t.base[i] > 0.0
  }

  lemma AssetsOk()
    ensures TableOk(ASSETS)
  {
  }

  // ---------------------------------------------------------------------------
  // State
  // ---------------------------------------------------------------------------

  /** The open position on symbol number `sym`; `size` is a whole number of units. */
  datatype SimPosition = SimPosition(sym: nat, entry: real, size: int, stop: real, target: real)

  datatype ExitKind = Stop | Win

  /** A trade-log entry. The source stores `toFixed(2)` strings; the model keeps their
      value in cents. */
  datatype LogEntry =
    | Buy(sym: nat, priceCents: int)
    | Exit(kind: ExitKind, sym: nat, pnlCents: int)

  /** The three `Math.random()` draws one symbol consumes in one tick. */
  datatype SimDraw = SimDraw(trendRoll: real, trendDraw: real, shockDraw: real)

  /** An entry candidate: the symbol, its latest price and its ten-tick momentum. */
  datatype Pick = Pick(idx: nat, price: real, strength: real)

  /** The simulator's React state and the `trends` ref, as a value. */
  datatype SimState = SimState(
    balance: real,
    position: Option<SimPosition>,
    prices: seq<seq<real>>,
    trades: seq<LogEntry>,
    running: bool,
    tick: nat,
    lastTraded: Option<nat>,
    trends: seq<real>)

  /** `Number.prototype.toFixed(2)` read back as a number, in cents: the nearest cent,
      a tie going away from zero. */
  function Cents(x: real): (c: int)
    ensures (c as real) - 0.5 <= 100.0 * x <= (c as real) + 0.5
    ensures c > 0 ==> x > 0.0
    ensures c < 0 ==> x < 0.0
  {
    if x >= 0.0 then (100.0 * x + 0.5).Floor else -((-100.0 * x + 0.5).Floor)
  }

  /** Every symbol has a trend and a non-empty history of at most 50 prices inside its
      band [0.7·base, 1.5·base]. */
  predicate PricesOk(t: Table, prices: seq<seq<real>>, trends: seq<real>)
    requires TableOk(t)
  {
    |prices| == |t.syms| && |trends| == |t.syms|
    && forall i :: 0 <= i < |t.syms| ==>
      1 <= |prices[i]| <= HISTORY_CAP && AllWithin(prices[i], 0.7 * t.base[i], 1.5 * t.base[i])
  }

  /** An open position trades a known symbol at a positive entry with a non-negative size;
      its stop is at least the initial stop and below the target. */
  predicate PositionOk(t: Table, p: SimPosition) {
    p.sym < |t.syms| && p.entry > 0.0 && p.size >= 0
    && p.target == p.entry * 1.07 && p.entry * 0.965 <= p.stop < p.target
  }

  /** The invariant every effect keeps. */
  predicate StateOk(t: Table, s: SimState) {
    TableOk(t) && PricesOk(t, s.prices, s.trends) && s.balance >= BALANCE_FLOOR
    && (s.position.Some? ==> PositionOk(t, s.position.value))
  }

  predicate Busted(s: SimState) { s.balance <= BALANCE_FLOOR }
  predicate Won(s: SimState) { s.balance >= BALANCE_GOAL }

  /** The state `useState` starts with and `reset` restores: balance 100, no position,
      each symbol's history holding only its base price, an empty log, stopped, tick 0,
      nothing traded yet and every trend zero. */
  function Initial(t: Table): (s: SimState)
    requires TableOk(t)
    ensures StateOk(t, s)
  {
    SimState(START_BALANCE, None, seq(|t.syms|, i requires 0 <= i < |t.syms| => [t.base[i]]), [], false, 0, None,
             seq(|t.syms|, i => 0.0))
  }

  // ---------------------------------------------------------------------------
  // Price tick
  // ---------------------------------------------------------------------------

  /** One symbol's trend: re-drawn when the first draw is below 0.05. */
  function NextTrend(trend: real, d: SimDraw): real {
    if d.trendRoll < 0.05 then (d.trendDraw - 0.45) * 0.008 else trend
  }

  /** The next price: drift, trend and shock, clamped to the symbol's band. */
  function NextPrice(last: real, trend: real, base: real, shockDraw: real): (r: real)
    requires base >= 0.0
    ensures 0.7 * base <= r <= 1.5 * base
  {
    Max(base * 0.7, Min(base * 1.5, last * (1.0 + (0.0001 + trend + (shockDraw - 0.5) * 0.012))))
  }

  /** The history after a tick: the newest 49 prices are kept once there are 50, then
      the new price is appended. */
  function NextHistory(h: seq<real>, p: real): seq<real> {
    (if |h| >= HISTORY_CAP then h[|h| - (HISTORY_CAP - 1)..] else h) + [p]
  }

  /** The history grows by one up to the cap; when it is trimmed only the oldest prices
      go, so the result is a suffix of the old history followed by the new price. */
  lemma NextHistoryWindow(h: seq<real>, p: real)
    ensures |NextHistory(h, p)| == MinNat(|h| + 1, HISTORY_CAP)
    ensures NextHistory(h, p) == (h + [p])[|h| + 1 - |NextHistory(h, p)|..]
    ensures NextHistory(h, p)[|NextHistory(h, p)| - 1] == p
  {
    var r := NextHistory(h, p);
    if |h| >= HISTORY_CAP {
      assert r == (h + [p])[|h| + 1 - HISTORY_CAP..];
    } else {
      assert (h + [p])[0..] == h + [p];
    }
  }

  /** The interval runs only while the simulator is running and neither busted nor won. */
  predicate TickGate(s: SimState) {
    s.running && BALANCE_FLOOR < s.balance < BALANCE_GOAL
  }

  /** Symbol `i`'s trend after its turn in the `forEach`. */
  function MovedTrend(t: Table, s: SimState, draws: seq<SimDraw>, i: nat): real
    requires StateOk(t, s) && |draws| == |t.syms| && i < |t.syms|
  {
    NextTrend(s.trends[i], draws[i])
  }

  /** Symbol `i`'s history after its turn in the `forEach`, moved with its new trend. */
  function MovedHistory(t: Table, s: SimState, draws: seq<SimDraw>, i: nat): seq<real>
    requires StateOk(t, s) && |draws| == |t.syms| && i < |t.syms|
  {
    var h := s.prices[i];
    NextHistory(h, NextPrice(h[|h| - 1], MovedTrend(t, s, draws, i), t.base[i], draws[i].shockDraw))
  }

  /** One firing of the price interval: every symbol moves once and the tick advances;
      nothing happens when the interval is not running. */
  function Tick(t: Table, s: SimState, draws: seq<SimDraw>): SimState
    requires StateOk(t, s) && |draws| == |t.syms|
  {
    if !TickGate(s) then s
    else s.(prices := seq(|t.syms|, i requires 0 <= i < |t.syms| => MovedHistory(t, s, draws, i)),
            trends := seq(|t.syms|, i requires 0 <= i < |t.syms| => MovedTrend(t, s, draws, i)),
            tick := s.tick + 1)
  }

  /** One symbol's moved history: one more price, up to the cap, dropping only the
      oldest, the new one inside the band; so the band invariant holds afterwards. */
  lemma MovedHistoryWindow(t: Table, s: SimState, draws: seq<SimDraw>, i: nat)
    requires StateOk(t, s) && |draws| == |t.syms| && i < |t.syms|
    ensures var h, o := MovedHistory(t, s, draws, i), s.prices[i];
      |h| == MinNat(|o| + 1, HISTORY_CAP)
      && h[..|h| - 1] == o[|o| + 1 - |h|..]
      && 0.7 * t.base[i] <= h[|h| - 1] <= 1.5 * t.base[i]
      && AllWithin(h, 0.7 * t.base[i], 1.5 * t.base[i])
  {
    var o := s.prices[i];
    var p := NextPrice(o[|o| - 1], MovedTrend(t, s, draws, i), t.base[i], draws[i].shockDraw);
    var h := MovedHistory(t, s, draws, i);
    NextHistoryWindow(o, p);
    assert h == (o + [p])[|o| + 1 - |h|..];
    assert h[..|h| - 1] == o[|o| + 1 - |h|..];
    forall k | 0 <= k < |h|
      ensures 0.7 * t.base[i] <= h[k] <= 1.5 * t.base[i]
    {
      if k < |h| - 1 {
        assert h[k] == o[|o| + 1 - |h| + k];
      }
    }
  }

  /** A tick keeps the invariant; when the interval runs, every symbol's history gains
      exactly one in-band price (dropping only its oldest once full), the tick advances
      by one and balance, position and log are untouched; otherwise nothing changes. */
  lemma TickProperties(t: Table, s: SimState, draws: seq<SimDraw>)
    requires StateOk(t, s) && |draws| == |t.syms|
    ensures StateOk(t, Tick(t, s, draws))
    ensures !TickGate(s) ==> Tick(t, s, draws) == s
    ensures TickGate(s) ==>
      Tick(t, s, draws).tick == s.tick + 1
      && Tick(t, s, draws).balance == s.balance && Tick(t, s, draws).position == s.position
      && Tick(t, s, draws).trades == s.trades
    ensures TickGate(s) ==> forall i :: 0 <= i < |t.syms| ==>
      var h, o := Tick(t, s, draws).prices[i], s.prices[i];
      |h| == MinNat(|o| + 1, HISTORY_CAP)
      && h[..|h| - 1] == o[|o| + 1 - |h|..]
      && 0.7 * t.base[i] <= h[|h| - 1] <= 1.5 * t.base[i]
  {
    if TickGate(s) {
      forall i | 0 <= i < |t.syms|
        ensures var h, o := MovedHistory(t, s, draws, i), s.prices[i];
          |h| == MinNat(|o| + 1, HISTORY_CAP)
          && h[..|h| - 1] == o[|o| + 1 - |h|..]
          && 0.7 * t.base[i] <= h[|h| - 1] <= 1.5 * t.base[i]
          && AllWithin(h, 0.7 * t.base[i], 1.5 * t.base[i])
      {
        MovedHistoryWindow(t, s, draws, i);
      }
    }
  }

  // ---------------------------------------------------------------------------
  // Exits and the trailing stop
  // ---------------------------------------------------------------------------

  /** The exit effect: with an open position, a running simulator and a non-empty
      history for the position's symbol, settle the position at that history's latest
      price. */
  function Manage(t: Table, s: SimState): SimState
    requires StateOk(t, s)
  {
    if s.position.None? || !s.running then s
    else
      var pos := s.position.value;
      if pos.sym >= |s.prices| || |s.prices[pos.sym]| == 0 then s
      else
        var h := s.prices[pos.sym];
        Settle(s, pos, h[|h| - 1])
  }

  /** The position is stopped out at the current price (balance floored at 10), or taken
      as a win at the current price (no cap), or its stop is raised to `0.97·current`
      when the gain exceeds 2%. */
  function Settle(s: SimState, pos: SimPosition, current: real): SimState
    requires pos.entry > 0.0
  {
    var pnl := (current - pos.entry) * (pos.size as real);
    var pnlPct := (current - pos.entry) / pos.entry;
    if current <= pos.stop then
      s.(balance := Max(BALANCE_FLOOR, s.balance + pnl),
         trades := s.trades + [Exit(Stop, pos.sym, Cents(pnl))],
         position := None)
    else if current >= pos.target then
      s.(balance := s.balance + pnl,
         trades := s.trades + [Exit(Win, pos.sym, Cents(pnl))],
         position := None)
    else if pnlPct > 0.02 then
      s.(position := Some(pos.(stop := Max(pos.stop, current * 0.97))))
    else s
  }

  /** The exit effect keeps the invariant: a stop-out never leaves less than 10, a win
      never loses money; it leaves prices, trends and tick alone, appends at most one
      log entry, and a position it keeps has the same symbol, entry, size and target and
      a stop that was never lowered. */
  lemma ManageProperties(t: Table, s: SimState)
    requires StateOk(t, s)
    ensures StateOk(t, Manage(t, s))
    ensures Manage(t, s).prices == s.prices && Manage(t, s).trends == s.trends && Manage(t, s).tick == s.tick
    ensures Manage(t, s).running == s.running && Manage(t, s).lastTraded == s.lastTraded
    ensures Manage(t, s).trades == s.trades || (s.position.Some? && Manage(t, s).position.None?
      && |Manage(t, s).trades| == |s.trades| + 1 && Manage(t, s).trades[..|s.trades|] == s.trades)
    ensures Manage(t, s).position.Some? ==>
      s.position.Some?
      && var p, q := s.position.value, Manage(t, s).position.value;
         q.sym == p.sym && q.entry == p.entry && q.size == p.size && q.target == p.target
         && q.stop >= p.stop
    ensures Manage(t, s).balance < s.balance ==>
      Manage(t, s).balance >= BALANCE_FLOOR
      && Manage(t, s).trades[|Manage(t, s).trades| - 1].Exit?
      && Manage(t, s).trades[|Manage(t, s).trades| - 1].kind == Stop
  {
    var r := Manage(t, s);
    if s.position.Some? && s.running {
      var pos := s.position.value;
      if pos.sym < |s.prices| && |s.prices[pos.sym]| > 0 {
        var h := s.prices[pos.sym];
        var current := h[|h| - 1];
        var pnl := (current - pos.entry) * (pos.size as real);
        if current > pos.stop && current >= pos.target {
          assert current - pos.entry >= 0.0;
          assert pnl >= 0.0;
        } else if current > pos.stop && current < pos.target {
          assert r.position.Some? ==> r.position.value.stop < pos.target;
        }
        assert r.trades == s.trades || r.trades[..|s.trades|] == s.trades;
      }
    }
  }

  /** The exit effect's values. It does nothing without a position or while stopped
      (every symbol has a price, so the history guard never fires in a valid state).
      Otherwise, with `current` the symbol's latest price and `pnl = (current − entry)·size`:
      at or below the stop the position closes as STOP with the balance `b + pnl` floored
      at 10; at or above the target it closes as WIN with `b + pnl` uncapped; in between
      the stop becomes `max(stop, 0.97·current)` after a gain above 2% and stays otherwise.
      An exit logs its P&L to the cent and clears the position; nothing else changes. */
  /** Managing leaves the state alone when there is no position or the game has stopped,
      and otherwise settles the position at the last price of its symbol's history
      (which the invariant keeps non-empty); `SettleStop`, `SettleWin` and `SettleTrail`
      give the outcome of each branch. */
  lemma ManageOutcome(t: Table, s: SimState)
    requires StateOk(t, s)
    ensures s.position.None? || !s.running ==> Manage(t, s) == s
    ensures s.position.Some? && s.running ==>
      s.position.value.sym < |s.prices| && |s.prices[s.position.value.sym]| >= 1
      && s.position.value.entry > 0.0 && s.position.value.size >= 0
      && s.position.value.stop < s.position.value.target && s.position.value.target >= s.position.value.entry
      && Manage(t, s) == Settle(s, s.position.value, s.prices[s.position.value.sym][|s.prices[s.position.value.sym]| - 1])
  {
    if s.position.Some? && s.running {
      var pos := s.position.value;
      assert PositionOk(t, pos);
      assert pos.target == pos.entry * 1.07;
    }
  }

  /** At or below the stop: a STOP exit at the current price, the balance floored at 10. */
  lemma SettleStop(s: SimState, pos: SimPosition, current: real)
    requires pos.entry > 0.0 && current <= pos.stop
    ensures var pnl := (current - pos.entry) * (pos.size as real);
      Settle(s, pos, current) == s.(balance := if s.balance + pnl >= BALANCE_FLOOR then s.balance + pnl else BALANCE_FLOOR,
                                    trades := s.trades + [Exit(Stop, pos.sym, Cents(pnl))], position := None)
  {
    var pnl := (current - pos.entry) * (pos.size as real);
    var exit := Exit(Stop, pos.sym, Cents(pnl));
    assert Settle(s, pos, current) == s.(balance := Max(BALANCE_FLOOR, s.balance + pnl), trades := s.trades + [exit], position := None);
  }

  /** Above the stop and at or above the target: a WIN exit that never lowers the balance. */
  lemma SettleWin(s: SimState, pos: SimPosition, current: real)
    requires pos.entry > 0.0 && pos.size >= 0 && pos.stop < current && current >= pos.target >= pos.entry
    ensures var pnl := (current - pos.entry) * (pos.size as real);
      Settle(s, pos, current) == s.(balance := s.balance + pnl, trades := s.trades + [Exit(Win, pos.sym, Cents(pnl))],
                                    position := None)
      && Settle(s, pos, current).balance >= s.balance
  {
    NonNegProduct(current - pos.entry, pos.size as real);
  }

  /** Strictly between stop and target: the stop trails to 97% of the price after a gain
      above 2%, and otherwise nothing changes. */
  lemma SettleTrail(s: SimState, pos: SimPosition, current: real)
    requires pos.entry > 0.0 && pos.stop < current < pos.target
    ensures current > 1.02 * pos.entry ==>
      Settle(s, pos, current) == s.(position := Some(pos.(stop := if current * 0.97 > pos.stop then current * 0.97 else pos.stop)))
    ensures current <= 1.02 * pos.entry ==> Settle(s, pos, current) == s
  {
    GainAbove(current, pos.entry);
  }

  lemma NonNegProduct(x: real, y: real)
    requires x >= 0.0 && y >= 0.0
    ensures x * y >= 0.0
  {
  }

  /** A relative gain above 2% is a price above 1.02 times the entry. */
  lemma GainAbove(current: real, entry: real)
    requires entry > 0.0
    ensures (current - entry) / entry > 0.02 <==> current > 1.02 * entry
  {
    var x := (current - entry) / entry;
    assert x * entry == current - entry;
    if x > 0.02 {
      assert (x - 0.02) * entry > 0.0;
    } else {
      assert (0.02 - x) * entry >= 0.0;
    }
  }

  // ---------------------------------------------------------------------------
  // Entry
  // ---------------------------------------------------------------------------

  /** Symbol `i` as an entry candidate: not the last-traded symbol and with at least 10
      prices; its strength is the latest price's distance above the mean of the latest
      10, relative to that mean. */
  function Candidate(t: Table, s: SimState, i: nat): (c: Option<Pick>)
    requires StateOk(t, s) && i < |t.syms|
    ensures c.Some? ==> c.value.idx == i && c.value.price == s.prices[i][|s.prices[i]| - 1]
  {
    if s.lastTraded == Some(i) then None
    else
      var p := s.prices[i];
      if |p| < 10 then None
      else
        var avg := Sum(LastN(p, 10)) / 10.0;
        PositiveMean(p, t.base[i]);
        var current := p[|p| - 1];
        Some(Pick(i, current, (current - avg) / avg))
  }

  /** A window of in-band prices has a positive mean. */
  lemma PositiveMean(p: seq<real>, base: real)
    requires |p| >= 10 && base > 0.0 && AllWithin(p, 0.7 * base, 1.5 * base)
    ensures Sum(LastN(p, 10)) / 10.0 > 0.0
  {
    AllWithinLastN(p, 10, 0.7 * base, 1.5 * base);
    SumWithin(LastN(p, 10), 0.7 * base, 1.5 * base);
  }

  /** A candidate that may be opened: its strength is strictly above 0.001. */
  predicate Strong(t: Table, s: SimState, i: nat)
    requires StateOk(t, s) && i < |t.syms|
  {
    Candidate(t, s, i).Some? && Candidate(t, s, i).value.strength > 0.001
  }

  /** The `forEach` over the first `n` symbols: the strongest strong candidate, the first
      one winning a tie. */
  function BestUpTo(t: Table, s: SimState, n: nat): Option<Pick>
    requires StateOk(t, s) && n <= |t.syms|
  {
    if n == 0 then None
    else
      var best := BestUpTo(t, s, n - 1);
      var c := Candidate(t, s, n - 1);
      if c.Some? && c.value.strength > 0.001 && (best.None? || c.value.strength > best.value.strength)
      then c else best
  }

  /** The scan finds nothing exactly when no symbol is strong; otherwise it finds a strong
      symbol whose strength no symbol exceeds and every earlier symbol falls short of. */
  lemma {:induction false} BestUpToIsBest(t: Table, s: SimState, n: nat)
    requires StateOk(t, s) && n <= |t.syms|
    ensures BestUpTo(t, s, n).None? <==> forall i :: 0 <= i < n ==> !Strong(t, s, i)
    ensures BestUpTo(t, s, n).Some? ==>
      var b := BestUpTo(t, s, n).value;
      b.idx < n && Strong(t, s, b.idx) && Candidate(t, s, b.idx) == Some(b)
      && (forall i :: 0 <= i < n && Strong(t, s, i) ==> Candidate(t, s, i).value.strength <= b.strength)
      && (forall i :: 0 <= i < b.idx && Strong(t, s, i) ==> Candidate(t, s, i).value.strength < b.strength)
  {
    if n > 0 {
      BestUpToIsBest(t, s, n - 1);
      if !Strong(t, s, n - 1) {
        assert BestUpTo(t, s, n) == BestUpTo(t, s, n - 1);
      }
    }
  }

  /** The entry effect: when running, flat and neither busted nor won, open on the best
      candidate, if any, with `floor(0.08·balance)` units, a stop at 96.5% and a target at
      107% of the price, remember the symbol and log a BUY. */
  function Enter(t: Table, s: SimState): SimState
    requires StateOk(t, s)
  {
    if !s.running || s.position.Some? || s.balance <= BALANCE_FLOOR || s.balance >= BALANCE_GOAL then s
    else
      match BestUpTo(t, s, |t.syms|)
      case None => s
      case Some(b) =>
        s.(position := Some(SimPosition(b.idx, b.price, (s.balance * 0.08).Floor, b.price * 0.965, b.price * 1.07)),
           lastTraded := Some(b.idx),
           trades := s.trades + [Buy(b.idx, Cents(b.price))])
  }

  /** The entry effect keeps the invariant; it opens a position only when none was open
      and the simulator was running and neither busted nor won, and the position it opens
      is on the best candidate with the sizing and levels above. */
  lemma EnterProperties(t: Table, s: SimState)
    requires StateOk(t, s)
    ensures StateOk(t, Enter(t, s))
    ensures Enter(t, s).prices == s.prices && Enter(t, s).balance == s.balance && Enter(t, s).tick == s.tick
    ensures Enter(t, s) != s ==> s.position.None? && s.running && BALANCE_FLOOR < s.balance < BALANCE_GOAL
    ensures Enter(t, s).position.Some? && s.position.None? ==>
      var p := Enter(t, s).position.value;
      BestUpTo(t, s, |t.syms|).Some? && p.sym == BestUpTo(t, s, |t.syms|).value.idx
      && p.entry == BestUpTo(t, s, |t.syms|).value.price
      && p.size == (s.balance * 0.08).Floor && p.stop == p.entry * 0.965 && p.target == p.entry * 1.07
      && Enter(t, s).lastTraded == Some(p.sym)
      && Enter(t, s).trades == s.trades + [Buy(p.sym, Cents(p.entry))]
  {
    if s.running && s.position.None? && BALANCE_FLOOR < s.balance < BALANCE_GOAL {
      var best := BestUpTo(t, s, |t.syms|);
      BestUpToIsBest(t, s, |t.syms|);
      if best.Some? {
        var b := best.value;
        var h := s.prices[b.idx];
        assert b.price == h[|h| - 1];
        assert 0.7 * t.base[b.idx] <= b.price;
        assert (s.balance * 0.08).Floor >= 0;
      }
    }
  }

  // ---------------------------------------------------------------------------
  // Start/stop and the score
  // ---------------------------------------------------------------------------

  /** The Start/Stop button and the space bar: ignored once busted or won. */
  function Toggle(s: SimState): (r: SimState)
    ensures Busted(s) || Won(s) ==> r == s
    ensures !Busted(s) && !Won(s) ==> r == s.(running := !s.running)
  {
    if Busted(s) || Won(s) then s else s.(running := !s.running)
  }

  /** `t.pnl` is a non-empty string exactly on exits. */
  predicate IsExit(e: LogEntry) { e.Exit? }

  /** An exit whose `toFixed(2)` P&L reads back as a positive number. */
  predicate IsWin(e: LogEntry) { e.Exit? && e.pnlCents > 0 }

  /** The percentage of exits that were profitable, 0 with no exits. */
  function WinRate(trades: seq<LogEntry>): (r: real)
    ensures 0.0 <= r <= 100.0
  {
    var exits := Filter(trades, IsExit);
    var wins := Filter(exits, IsWin);
    if |exits| == 0 then 0.0 else
      Percentage(|wins|, |exits|);
      (|wins| as real) / (|exits| as real) * 100.0
  }

  /** A part of a non-empty whole is between 0 and 100 percent of it. */
  lemma Percentage(part: nat, whole: nat)
    requires part <= whole && whole > 0
    ensures 0.0 <= (part as real) / (whole as real) * 100.0 <= 100.0
  {
    assert (part as real) / (whole as real) <= 1.0;
  }

  /** With no exit in the log the win rate is 0. */
  lemma WinRateNoExits(trades: seq<LogEntry>)
    requires forall k :: 0 <= k < |trades| ==> !IsExit(trades[k])
    ensures WinRate(trades) == 0.0
  {
    FilterNone(trades, IsExit);
  }

  // ---------------------------------------------------------------------------
  // The simulator's state, updated in place by its effects
  // ---------------------------------------------------------------------------

  class Simulator {
    var balance: real
    var position: Option<SimPosition>
    var prices: seq<seq<real>>
    var trades: seq<LogEntry>
    var running: bool
    var tick: nat
    var lastTraded: Option<nat>
    var trends: seq<real>
    /** The traded symbols and their base prices (`ASSETS`). */
    const table: Table

    function State(): SimState
      reads this
    {
      SimState(balance, position, prices, trades, running, tick, lastTraded, trends)
    }

    ghost predicate Valid()
      reads this
    {
      StateOk(table, State())
    }

    constructor ()
      ensures table == ASSETS && Valid() && State() == Initial(table)
    {
      table := ASSETS;
      balance := START_BALANCE;
      position := None;
      prices := seq(|SYMS|, i requires 0 <= i < |SYMS| => [BASE_PRICES[i]]);
      trades := [];
      running := false;
      tick := 0;
      lastTraded := None;
      trends := seq(|SYMS|, i => 0.0);
    }

    /** `reset`. */
    method Reset()
      requires Valid()
      modifies this
      ensures Valid() && State() == Initial(table)
    {
      balance := START_BALANCE;
      position := None;
      prices := seq(|table.syms|, i requires 0 <= i < |table.syms| => [table.base[i]]);
      trades := [];
      running := false;
      tick := 0;
      lastTraded := None;
      trends := seq(|table.syms|, i => 0.0);
    }

    /** One firing of the price interval: the `forEach` fills `next` symbol by symbol
        and updates the `trends` ref, then `setPrices` and `setTick`. */
    method PriceTick(draws: seq<SimDraw>)
      requires Valid() && |draws| == |table.syms|
      modifies this
      ensures Valid() && State() == Tick(table, old(State()), draws)
    {
      ghost var s0 := State();
      TickProperties(table, s0, draws);
      if !running || balance <= BALANCE_FLOOR || balance >= BALANCE_GOAL {
        return;
      }
      var next := MoveAll(s0, draws);
      prices := next;
      tick := tick + 1;
      assert prices == Tick(table, s0, draws).prices;
      assert trends == Tick(table, s0, draws).trends;
    }

    /** The `forEach` of the price interval: each symbol in turn updates its trend and
        contributes its next history to `next`. */
    method MoveAll(ghost s0: SimState, draws: seq<SimDraw>) returns (next: seq<seq<real>>)
      requires StateOk(table, s0) && State() == s0 && |draws| == |table.syms|
      modifies this`trends
      ensures |next| == |table.syms| && |trends| == |table.syms|
      ensures forall j :: 0 <= j < |table.syms| ==> next[j] == MovedHistory(table, s0, draws, j)
      ensures forall j :: 0 <= j < |table.syms| ==> trends[j] == MovedTrend(table, s0, draws, j)
    {
      next := [];
      var i := 0;
      while i < |table.syms|
        invariant 0 <= i <= |table.syms| && |trends| == |table.syms|
        invariant |next| == i && forall j :: 0 <= j < i ==> next[j] == MovedHistory(table, s0, draws, j)
        invariant forall j :: 0 <= j < i ==> trends[j] == MovedTrend(table, s0, draws, j)
        invariant forall j :: i <= j < |table.syms| ==> trends[j] == s0.trends[j]
      {
        var h := MoveSymbol(i, draws[i]);
        next := next + [h];
        i := i + 1;
      }
    }

    /** Symbol `i`'s turn in the `forEach`: perhaps re-draw its trend, then its next
        history. */
    method MoveSymbol(i: nat, d: SimDraw) returns (h: seq<real>)
      requires TableOk(table) && i < |table.syms| && i < |trends| && i < |prices| && |prices[i]| >= 1
      modifies this`trends
      ensures trends == old(trends)[i := NextTrend(old(trends)[i], d)]
      ensures h == NextHistory(prices[i], NextPrice(prices[i][|prices[i]| - 1], trends[i], table.base[i], d.shockDraw))
    {
      if d.trendRoll < 0.05 {
        trends := trends[i := (d.trendDraw - 0.45) * 0.008];
      }
      var drift := 0.0001;
      var move := drift + trends[i] + (d.shockDraw - 0.5) * 0.012;
      var p := prices[i];
      var last := p[|p| - 1];
      var base := table.base[i];
      var newPrice := Max(base * 0.7, Min(base * 1.5, last * (1.0 + move)));
      var kept := if |p| >= HISTORY_CAP then p[|p| - (HISTORY_CAP - 1)..] else p;
      assert newPrice == NextPrice(last, trends[i], base, d.shockDraw);
      h := kept + [newPrice];
    }

    /** The exit effect. */
    method ManagePosition()
      requires Valid()
      modifies this
      ensures Valid() && State() == Manage(table, old(State()))
    {
      ManageProperties(table, State());
      if position.Some? && running {
        var pos := position.value;
        if pos.sym < |prices| && |prices[pos.sym]| > 0 {
          var p := prices[pos.sym];
          SettleAt(pos, p[|p| - 1]);
        }
      }
    }

    /** The body of the exit effect once the position's latest price is known. */
    method SettleAt(pos: SimPosition, current: real)
      requires pos.entry > 0.0
      modifies this`balance, this`trades, this`position
      ensures State() == Settle(old(State()), pos, current)
    {
      var pnl := (current - pos.entry) * (pos.size as real);
      var pnlPct := (current - pos.entry) / pos.entry;
      if current <= pos.stop {
        balance := Max(BALANCE_FLOOR, balance + pnl);
        trades := trades + [Exit(Stop, pos.sym, Cents(pnl))];
        position := None;
      } else if current >= pos.target {
        balance := balance + pnl;
        trades := trades + [Exit(Win, pos.sym, Cents(pnl))];
        position := None;
      } else if pnlPct > 0.02 {
        position := Some(pos.(stop := Max(pos.stop, current * 0.97)));
      }
    }

    /** The entry effect: the `forEach` keeps the strongest candidate so far. */
    method EnterPosition()
      requires Valid()
      modifies this
      ensures Valid() && State() == Enter(table, old(State()))
    {
      EnterProperties(table, State());
      if !running || position.Some? || balance <= BALANCE_FLOOR || balance >= BALANCE_GOAL {
        return;
      }
      var best: Option<Pick> := None;
      for i := 0 to |table.syms|
        invariant best == BestUpTo(table, State(), i)
      {
        var c := Candidate(table, State(), i);
        if c.Some? && c.value.strength > 0.001 && (best.None? || c.value.strength > best.value.strength) {
          best := c;
        }
      }
      if best.Some? {
        var b := best.value;
        var size := (balance * 0.08).Floor;
        position := Some(SimPosition(b.idx, b.price, size, b.price * 0.965, b.price * 1.07));
        lastTraded := Some(b.idx);
        trades := trades + [Buy(b.idx, Cents(b.price))];
      }
    }

    /** The Start/Stop button. */
    method ToggleRunning()
      modifies this`running
      ensures State() == Toggle(old(State()))
    {
      if balance > BALANCE_FLOOR && balance < BALANCE_GOAL {
        running := !running;
      }
    }
  }
}
