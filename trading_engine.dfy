/** The C trading engine's state: 64 asset slots, each with a ring of recent prices, a
    single open position, a bounded trade log, the balance and a 32-bit tick counter.
    Every `rand()` draw is a parameter. */
module TradingEngine {
  import opened Common
  import opened PriceHistory
  import opened EngineRules

  // ---------------------------------------------------------------------------
  // Asset
  // ---------------------------------------------------------------------------

  /** An asset's observable state as a value: what one step of the walk reads and writes. */
  datatype AssetState = AssetState(symbol: string, base: real, price: real, trend: real, retained: seq<real>)

  /** One step of an asset's random walk: the trend is perhaps re-drawn, the price moves
      and is clamped to the band, and the new price joins the retained prices. */
  function StepState(s: AssetState, d: TickDraw): (r: AssetState)
    requires s.base >= 0.0
    ensures r.symbol == s.symbol && r.base == s.base
    ensures r.trend == NextTrend(s.trend, d)
    ensures 0.7 * s.base <= r.price <= 1.5 * s.base
    ensures |r.retained| >= 1 && r.retained[|r.retained| - 1] == r.price
    ensures r.retained == LastN(s.retained + [r.price], PRICE_HISTORY_SIZE)
  {
    var t := NextTrend(s.trend, d);
    var p := StepPrice(s.price, t, s.base, d.shockDraw);
    AssetState(s.symbol, s.base, p, t, LastN(s.retained + [p], PRICE_HISTORY_SIZE))
  }

  class Asset {
    var symbol: string
    var basePrice: real
    var currentPrice: real
    var trend: real
    const history: PriceBuffer

    /** A live asset: the price stays inside the walk's band, every retained price does
        too, and the most recent retained price is the current one. */
    ghost predicate Valid()
      reads this, history, history.prices
    {
      history.Valid() && basePrice > 0.0
      && 0.7 * basePrice <= currentPrice <= 1.5 * basePrice
      && |history.contents| >= 1
      && AllWithin(history.contents, 0.7 * basePrice, 1.5 * basePrice)
      && history.contents[|history.contents| - 1] == currentPrice
    }

    ghost function State(): AssetState
      reads this, history
    {
      AssetState(symbol, basePrice, currentPrice, trend, history.contents)
    }

    /** A slot as `memset` leaves it: everything zero. */
    constructor ()
      ensures history.Valid() && fresh(history) && fresh(history.prices)
      ensures symbol == "" && basePrice == 0.0 && currentPrice == 0.0 && trend == 0.0
      ensures history.contents == []
    {
      symbol := "";
      basePrice := 0.0;
      currentPrice := 0.0;
      trend := 0.0;
      history := new PriceBuffer();
    }

    /** What `engine_add_asset` writes into a free slot: the symbol cut to 7 characters,
        the price at base, no trend, and a history holding only the base price. */
    method Init(sym: string, base: real)
      requires history.Valid() && base > 0.0
      modifies this, history, history.prices
      ensures Valid()
      ensures symbol == Truncate7(sym) && basePrice == base && currentPrice == base && trend == 0.0
      ensures history.contents == [base]
    {
      symbol := Truncate7(sym);
      basePrice := base;
      currentPrice := base;
      trend := 0.0;
      history.Clear();
      history.Push(base);
      assert LastN([] + [base], PRICE_HISTORY_SIZE) == [base];
    }

    /** The retained prices are positive: the walk's band lies above zero. */
    lemma ContentsPositive()
      requires Valid()
      ensures AllPositive(history.contents)
    {
      var r := history.contents;
      forall k | 0 <= k < |r| ensures r[k] > 0.0 {
        assert 0.7 * basePrice <= r[k];
      }
    }

    /** `calculate_momentum`. */
    method Momentum() returns (m: real)
      requires Valid()
      ensures AllPositive(history.contents)
      ensures m == MomentumOf(history.contents, currentPrice)
    {
      ContentsPositive();
      if history.count < 10 {
        return 0.0;
      }
      var avg := history.Average(10);
      MomentumFromMean(history.contents, currentPrice, avg);
      m := (currentPrice - avg) / avg;
    }

    /** One asset's share of `engine_tick`: maybe re-draw the trend, move the price by the
        bounded random walk, and push the new price into the history. */
    method Step(d: TickDraw)
      requires Valid()
      modifies this, history, history.prices
      ensures Valid() && State() == StepState(old(State()), d)
    {
      var newPrice := Walk(d);
      Record(newPrice);
    }

    /** The price moves to `p` and `p` is pushed into the history. */
    method Record(p: real)
      requires Valid() && 0.7 * basePrice <= p <= 1.5 * basePrice
      modifies this`currentPrice, history, history.prices
      ensures Valid() && currentPrice == p
      ensures history.contents == LastN(old(history.contents) + [p], PRICE_HISTORY_SIZE)
    {
      currentPrice := p;
      ghost var before := history.contents;
      history.Push(p);
      AppendLastN(before, p, PRICE_HISTORY_SIZE, 0.7 * basePrice, 1.5 * basePrice);
    }

    /** The arithmetic of one step: the trend is perhaps re-drawn (5 in 100), then drift,
        trend and shock move the price, which is clamped to [0.7·base, 1.5·base]. */
    method Walk(d: TickDraw) returns (newPrice: real)
      requires basePrice > 0.0
      modifies this`trend
      ensures trend == NextTrend(old(trend), d)
      ensures newPrice == StepPrice(currentPrice, trend, basePrice, d.shockDraw)
    {
      if d.roll < 5 {
        trend := (d.trendDraw - 0.45) * 0.008;
      }
      var drift := 0.0001;
      var volatility := (d.shockDraw - 0.5) * 0.012;
      var move := drift + trend + volatility;
      newPrice := currentPrice * (1.0 + move);
      var minPrice := basePrice * 0.7;
      var maxPrice := basePrice * 1.5;
      newPrice := Min(Max(newPrice, minPrice), maxPrice);
    }
  }

  // ---------------------------------------------------------------------------
  // Engine
  // ---------------------------------------------------------------------------

  class Engine {
    /** The 64 asset slots; the first `assetCount` are live. */
    const slots: seq<Asset>
    var assetCount: nat
    var position: Position
    const trades: array<Trade>
    var tradeCount: nat
    var balance: real
    var tick: nat
    var lastTradedIdx: int
    /** The slots' objects: assets, their buffers and the buffers' arrays. */
    ghost const SlotRepr: set<object>
    /** Which slot each of those objects belongs to; it makes the slots' objects distinct. */
    ghost const Owner: map<object, nat>

    /** Facts about the engine's layout that no operation can change. */
    ghost predicate Layout() {
      |slots| == MAX_ASSETS && trades.Length == MAX_TRADES
      && this !in SlotRepr && trades !in SlotRepr
      && (forall i :: 0 <= i < MAX_ASSETS ==>
            slots[i] in SlotRepr && slots[i].history in SlotRepr && slots[i].history.prices in SlotRepr
            && slots[i] in Owner && Owner[slots[i]] == i
            && slots[i].history in Owner && Owner[slots[i].history] == i
            && slots[i].history.prices in Owner && Owner[slots[i].history.prices] == i)
    }

    /** Every slot's buffer is well formed and the first `n` slots hold live assets. */
    ghost predicate SlotsValid(n: nat)
      reads SlotRepr
      requires Layout()
    {
      n <= MAX_ASSETS
      && (forall i :: 0 <= i < MAX_ASSETS ==> slots[i].history.Valid())
      && (forall i :: 0 <= i < n ==> slots[i].Valid())
    }

    /** The layout holds and the live slots are valid. */
    ghost predicate SlotsLive()
      reads this`assetCount, SlotRepr
    {
      Layout() && SlotsValid(assetCount)
    }

    ghost predicate Valid()
      reads this, trades, SlotRepr
    {
      SlotsLive()
      && tradeCount <= MAX_TRADES && tick < TICK_MODULUS
      && (position.assetIdx == -1 || (0 <= position.assetIdx < assetCount && position.entryPrice > 0.0))
      && -1 <= lastTradedIdx < assetCount
    }

    /** The recorded trades, oldest first. */
    ghost function Log(): seq<Trade>
      reads this`tradeCount, trades
      requires tradeCount <= trades.Length
    {
      trades[..tradeCount]
    }

    /** The books as a value: position, balance and the recorded trades. */
    ghost function Ledger(): Books
      reads this`position, this`balance, this`tradeCount, trades
      requires tradeCount <= trades.Length
    {
      Books(position, balance, Log())
    }

    /** The inputs `find_best_trade` reads for asset `i`. */
    ghost function CandidateAt(i: nat): Candidate
      reads this`assetCount, SlotRepr
      requires SlotsLive() && i < assetCount
    {
      slots[i].ContentsPositive();
      Candidate(slots[i].history.count, slots[i].currentPrice,
                MomentumOf(slots[i].history.contents, slots[i].currentPrice))
    }

    /** The candidates of the first `n` assets, in index order. */
    ghost function CandidatesUpTo(n: nat): (cs: seq<Candidate>)
      reads this`assetCount, SlotRepr
      requires SlotsLive() && n <= assetCount
      ensures |cs| == n
    {
      if n == 0 then [] else CandidatesUpTo(n - 1) + [CandidateAt(n - 1)]
    }

    ghost function Candidates(): (cs: seq<Candidate>)
      reads this`assetCount, SlotRepr
      requires SlotsLive()
      ensures |cs| == assetCount
    {
      CandidatesUpTo(assetCount)
    }

    lemma {:induction false} CandidatesUpToAt(n: nat, i: nat)
      requires SlotsLive() && i < n <= assetCount
      ensures CandidatesUpTo(n)[i] == CandidateAt(i)
      decreases n
    {
      if i < n - 1 {
        CandidatesUpToAt(n - 1, i);
      }
    }

    /** What the scan reads for asset `i`, spelled out field by field. */
    lemma CandidateFacts(i: nat)
      requires SlotsLive() && i < assetCount
      ensures Candidates()[i].count == slots[i].history.count
      ensures Candidates()[i].price == slots[i].currentPrice > 0.0
      ensures AllPositive(slots[i].history.contents)
      ensures Candidates()[i].strength == MomentumOf(slots[i].history.contents, slots[i].currentPrice)
    {
      CandidatesUpToAt(assetCount, i);
      slots[i].ContentsPositive();
    }

    /** `engine_init`: every slot zeroed, the given balance, no assets, no position, no
        last-traded asset, no trades and tick 0. */
    constructor (initialBalance: real)
      ensures Valid() && fresh(SlotRepr)
      ensures balance == initialBalance && assetCount == 0 && tradeCount == 0 && tick == 0
      ensures position == Position(-1, 0.0, 0.0, 0.0, 0.0) && lastTradedIdx == -1
    {
      var s: seq<Asset> := [];
      ghost var objs: set<object> := {};
      ghost var owner: map<object, nat> := map[];
      while |s| < MAX_ASSETS
        invariant |s| <= MAX_ASSETS && fresh(objs)
        invariant forall i :: 0 <= i < |s| ==>
                    s[i] in objs && s[i].history in objs && s[i].history.prices in objs
                    && s[i] in owner && owner[s[i]] == i
                    && s[i].history in owner && owner[s[i].history] == i
                    && s[i].history.prices in owner && owner[s[i].history.prices] == i
                    && s[i].history.Valid()
        invariant owner.Keys == objs
        decreases MAX_ASSETS - |s|
      {
        var a := new Asset();
        owner := owner[a := |s|][a.history := |s|][a.history.prices := |s|];
        s := s + [a];
        objs := objs + {a, a.history, a.history.prices};
      }
      slots := s;
      SlotRepr := objs;
      Owner := owner;
      assetCount := 0;
      position := Position(-1, 0.0, 0.0, 0.0, 0.0);
      trades := new Trade[MAX_TRADES](_ => Trade("", 0.0, Buy));
      tradeCount := 0;
      balance := initialBalance;
      tick := 0;
      lastTradedIdx := -1;
    }

    /** `engine_add_asset`: ignored once 64 assets exist, otherwise fills the next slot. */
    method AddAsset(symbol: string, basePrice: real)
      requires Valid() && basePrice > 0.0
      modifies this`assetCount, SlotRepr
      ensures Valid()
      ensures old(assetCount) >= MAX_ASSETS ==> assetCount == old(assetCount)
      ensures old(assetCount) < MAX_ASSETS ==>
                assetCount == old(assetCount) + 1
                && slots[old(assetCount)].symbol == Truncate7(symbol)
                && slots[old(assetCount)].basePrice == basePrice
                && slots[old(assetCount)].currentPrice == basePrice
                && slots[old(assetCount)].trend == 0.0
                && slots[old(assetCount)].history.contents == [basePrice]
      ensures forall i :: 0 <= i < old(assetCount) ==>
                unchanged(slots[i]) && unchanged(slots[i].history) && unchanged(slots[i].history.prices)
    {
      if assetCount >= MAX_ASSETS {
        return;
      }
      FillSlot(assetCount, symbol, basePrice);
      assetCount := assetCount + 1;
    }

    /** The slot-writing part of `engine_add_asset`: slot `i`, the first free one, takes
        the asset and no other slot changes. */
    method FillSlot(i: nat, symbol: string, basePrice: real)
      requires Layout() && SlotsValid(i) && i < MAX_ASSETS && basePrice > 0.0
      modifies slots[i], slots[i].history, slots[i].history.prices
      ensures SlotsValid(i + 1)
      ensures slots[i].symbol == Truncate7(symbol) && slots[i].basePrice == basePrice
      ensures slots[i].currentPrice == basePrice && slots[i].trend == 0.0
      ensures slots[i].history.contents == [basePrice]
      ensures forall j :: 0 <= j < MAX_ASSETS && j != i ==>
                unchanged(slots[j]) && unchanged(slots[j].history) && unchanged(slots[j].history.prices)
    {
      slots[i].Init(symbol, basePrice);
    }

    /** `find_best_trade`, scanning the assets in index order (see `IsBest`). */
    method FindBestTrade(bal: real) returns (best: int)
      requires Valid()
      ensures best == BestTrade(Candidates(), bal, lastTradedIdx)
    {
      ghost var cs := Candidates();
      best := -1;
      var bestStrength := Threshold(bal);
      for i := 0 to assetCount
        invariant Scan(best, bestStrength) == ScanUpTo(cs, bal, lastTradedIdx, i)
      {
        best, bestStrength := ScanStep(i, bal, best, bestStrength);
      }
    }

    /** One pass of `find_best_trade`'s loop: asset `i` replaces the pick when it passes
        the filters and its momentum beats the strength to beat. */
    method ScanStep(i: nat, bal: real, best: int, bestStrength: real) returns (best': int, bestStrength': real)
      requires Valid() && i < assetCount
      requires Scan(best, bestStrength) == ScanUpTo(Candidates(), bal, lastTradedIdx, i)
      ensures Scan(best', bestStrength') == ScanUpTo(Candidates(), bal, lastTradedIdx, i + 1)
    {
      best', bestStrength' := best, bestStrength;
      var ok, strength := ScanAsset(i, bal);
      if !ok {
        return;
      }
      if strength > bestStrength {
        best', bestStrength' := i, strength;
      }
    }

    /** One pass of the scan: the filters for asset `i` and, when it passes them, its
        momentum. */
    method ScanAsset(i: nat, bal: real) returns (ok: bool, strength: real)
      requires Valid() && i < assetCount
      ensures ok == Eligible(Candidates()[i], i, bal, lastTradedIdx)
      ensures ok ==> strength == Candidates()[i].strength
    {
      CandidateFacts(i);
      var asset := slots[i];
      ok := Screen(asset.history.count, asset.currentPrice, i, bal, lastTradedIdx);
      if !ok {
        return ok, 0.0;
      }
      strength := asset.Momentum();
    }

    /** The logging step of `open_position` and `close_position`: append the trade, its
        symbol cut to 7 characters, while the log has room. */
    method RecordTrade(symbol: string, pnl: real, kind: TradeType)
      requires tradeCount <= MAX_TRADES == trades.Length
      modifies this`tradeCount, trades
      ensures tradeCount <= MAX_TRADES
      ensures Log() == old(Log()) + Recorded(old(tradeCount), symbol, pnl, kind)
    {
      if tradeCount < MAX_TRADES {
        trades[tradeCount] := Trade(Truncate7(symbol), pnl, kind);
        tradeCount := tradeCount + 1;
        assert Log() == old(Log()) + [trades[tradeCount - 1]];
      }
    }

    /** `open_position`: commit a balance-tiered size at the asset's current price with a
        1.5% stop and a 4.5% target, remember the asset, and log a BUY while the log has room.
        A size below 0.001 leaves everything as it was. */
    method OpenPosition(idx: int)
      requires Valid() && 0 <= idx < assetCount
      modifies this`position, this`lastTradedIdx, this`tradeCount, trades
      ensures Valid()
      ensures Ledger() == OpenBooks(old(Ledger()), idx, slots[idx].currentPrice, slots[idx].symbol)
      ensures lastTradedIdx == (if Opened(idx, slots[idx].currentPrice, balance).Some? then idx else old(lastTradedIdx))
    {
      ghost var before := Ledger();
      var asset := slots[idx];
      var sizePercent := OpenFraction(balance);
      var size := balance * sizePercent;
      if size < 0.001 {
        return;
      }
      assert slots[idx].Valid();
      assert asset.currentPrice > 0.0;
      position := Position(idx, asset.currentPrice, size, asset.currentPrice * 0.985, asset.currentPrice * 1.045);
      assert Opened(idx, asset.currentPrice, balance) == Some(position);
      assert OpenBooks(before, idx, asset.currentPrice, asset.symbol)
             == Books(position, balance, before.log + Recorded(|before.log|, asset.symbol, 0.0, Buy));
      lastTradedIdx := idx;
      RecordTrade(asset.symbol, 0.0, Buy);
    }

    /** `close_position`: book `(exit - entry)·size` into the balance, floored at 0.5, log the
        exit while the log has room, and clear the position. Without a position, nothing. */
    method ClosePosition(exitPrice: real, kind: TradeType)
      requires Valid()
      modifies this`balance, this`position, this`tradeCount, trades
      ensures Valid()
      ensures old(position.assetIdx) < 0 ==> Ledger() == old(Ledger())
      ensures old(position.assetIdx) >= 0 ==>
                Ledger() == CloseBooks(old(Ledger()), slots[old(position.assetIdx)].symbol, exitPrice, kind)
    {
      if position.assetIdx < 0 {
        return;
      }
      ghost var before := Ledger();
      var symbol := slots[position.assetIdx].symbol;
      var pnl := (exitPrice - position.entryPrice) * position.size;
      assert pnl == Pnl(before.position, exitPrice);
      balance := Max(0.5, balance + pnl);
      RecordTrade(symbol, pnl, kind);
      position := position.(assetIdx := -1);
    }

    /** `update_position`: with a position open, exit at the current price as STOP or WIN
        when a level is crossed, otherwise possibly raise the trailing stop. */
    method UpdatePosition()
      requires Valid()
      modifies this`balance, this`position, this`tradeCount, trades
      ensures Valid()
      ensures old(Log()) <= Log() && (old(balance) >= 0.5 ==> balance >= 0.5)
      ensures old(position.assetIdx) < 0 ==> Ledger() == old(Ledger())
      ensures old(position.assetIdx) >= 0 ==>
                Ledger() == UpdateBooks(old(Ledger()), slots[old(position.assetIdx)].symbol,
                                        slots[old(position.assetIdx)].currentPrice)
    {
      if position.assetIdx < 0 {
        return;
      }
      var asset := slots[position.assetIdx];
      var current := asset.currentPrice;
      if current <= position.stopLoss {
        assert Evaluate(position, current) == Close(current, Stop);
        ClosePosition(current, Stop);
        return;
      }
      if current >= position.takeProfit {
        assert Evaluate(position, current) == Close(current, Win);
        ClosePosition(current, Win);
        return;
      }
      var pnlPct := (current - position.entryPrice) / position.entryPrice;
      if pnlPct > 0.02 {
        var newStop := current * 0.97;
        if newStop > position.stopLoss {
          position := position.(stopLoss := newStop);
        }
      }
    }

    /** The price loop of `engine_tick`: every live asset takes one step of its random
        walk, consuming its own draws; nothing else changes. */
    method MovePrices(draws: seq<TickDraw>)
      requires Valid() && |draws| == assetCount
      modifies SlotRepr
      ensures Valid()
      ensures forall i :: 0 <= i < assetCount ==>
                slots[i].State() == StepState(old(slots[i].State()), draws[i])
    {
      for i := 0 to assetCount
        invariant SlotsValid(assetCount)
        invariant forall j :: 0 <= j < i ==> slots[j].State() == StepState(old(slots[j].State()), draws[j])
        invariant forall j :: i <= j < MAX_ASSETS ==> slots[j].State() == old(slots[j].State())
      {
        StepSlot(i, draws[i]);
      }
    }

    /** One pass of the price loop: asset `i` steps and no other slot changes. */
    method StepSlot(i: nat, d: TickDraw)
      requires Layout() && SlotsValid(assetCount) && i < assetCount
      modifies slots[i], slots[i].history, slots[i].history.prices
      ensures SlotsValid(assetCount)
      ensures slots[i].State() == StepState(old(slots[i].State()), d)
      ensures forall j :: 0 <= j < MAX_ASSETS && j != i ==> slots[j].State() == old(slots[j].State())
    {
      slots[i].Step(d);
    }

    /** The second half of `engine_tick`'s position handling: with no position open and a
        balance above 0.5, scan for the best asset and open it if there is one. `chosen`
        is the scan's answer, -1 when there was no scan or it found nothing. */
    method TryOpen() returns (ghost chosen: int)
      requires Valid()
      modifies this`position, this`tradeCount, this`lastTradedIdx, trades
      ensures Valid()
      ensures var b := old(Ledger());
              chosen == (if b.position.assetIdx < 0 && b.balance > 0.5
                         then BestTrade(old(Candidates()), b.balance, old(lastTradedIdx)) else -1)
      ensures chosen == -1 ==> Ledger() == old(Ledger()) && lastTradedIdx == old(lastTradedIdx)
      ensures chosen >= 0 ==>
                chosen < assetCount && position.assetIdx == lastTradedIdx == chosen && balance > 0.5
                && Ledger() == OpenBooks(old(Ledger()), chosen, slots[chosen].currentPrice, slots[chosen].symbol)
    {
      chosen := -1;
      if position.assetIdx < 0 && balance > 0.5 {
        var best := FindBestTrade(balance);
        chosen := best;
        if best >= 0 {
          OpensAboveFloor(best, slots[best].currentPrice, balance);
          OpenPosition(best);
        }
      }
    }

    /** The position half of `engine_tick`: manage an open position, giving the books
        `managed`, then try to open one (`TryOpen`). */
    method ManagePosition() returns (ghost managed: Books, ghost chosen: int)
      requires Valid()
      modifies this`balance, this`position, this`tradeCount, this`lastTradedIdx, trades
      ensures Valid()
      ensures managed == if old(position.assetIdx) >= 0
                         then UpdateBooks(old(Ledger()), slots[old(position.assetIdx)].symbol,
                                          slots[old(position.assetIdx)].currentPrice)
                         else old(Ledger())
      ensures chosen == (if managed.position.assetIdx < 0 && managed.balance > 0.5
                         then BestTrade(old(Candidates()), managed.balance, old(lastTradedIdx)) else -1)
      ensures chosen == -1 ==> Ledger() == managed && lastTradedIdx == old(lastTradedIdx)
      ensures chosen >= 0 ==>
                chosen < assetCount && position.assetIdx == lastTradedIdx == chosen && balance > 0.5
                && Ledger() == OpenBooks(managed, chosen, slots[chosen].currentPrice, slots[chosen].symbol)
      ensures old(Log()) <= Log()
      ensures old(balance) >= 0.5 ==> balance >= 0.5
    {
      ghost var cs := Candidates();
      if position.assetIdx >= 0 {
        UpdatePosition();
      }
      assert Candidates() == cs;
      managed := Ledger();
      chosen := TryOpen();
    }

    /** `engine_tick`: move every price, manage the position on the moved prices (the
        books become `managed`), try to open on the moved prices, and advance the 32-bit
        tick. The log only grows and a balance at or above the 0.5 floor stays there. */
    method EngineTick(draws: seq<TickDraw>) returns (ghost managed: Books, ghost chosen: int)
      requires Valid() && |draws| == assetCount
      modifies this`balance, this`position, this`tradeCount, this`lastTradedIdx, this`tick, trades, SlotRepr
      ensures Valid()
      ensures forall i :: 0 <= i < assetCount ==>
                slots[i].State() == StepState(old(slots[i].State()), draws[i])
      ensures managed == if old(position.assetIdx) >= 0
                         then UpdateBooks(old(Ledger()), slots[old(position.assetIdx)].symbol,
                                          slots[old(position.assetIdx)].currentPrice)
                         else old(Ledger())
      ensures chosen == (if managed.position.assetIdx < 0 && managed.balance > 0.5
                         then BestTrade(Candidates(), managed.balance, old(lastTradedIdx)) else -1)
      ensures chosen == -1 ==> Ledger() == managed && lastTradedIdx == old(lastTradedIdx)
      ensures chosen >= 0 ==>
                chosen < assetCount && position.assetIdx == lastTradedIdx == chosen && balance > 0.5
                && Ledger() == OpenBooks(managed, chosen, slots[chosen].currentPrice, slots[chosen].symbol)
      ensures tick == NextTick(old(tick))
      ensures old(Log()) <= Log()
      ensures old(balance) >= 0.5 ==> balance >= 0.5
    {
      assert this !in SlotRepr && trades !in SlotRepr;
      MovePrices(draws);
      assert tick == old(tick) && Ledger() == old(Ledger());
      managed, chosen := TradeAndAdvance();
    }

    /** The part of `engine_tick` after the prices move: manage the position (giving the
        books `managed`), try to open one, and advance the tick. */
    method TradeAndAdvance() returns (ghost managed: Books, ghost chosen: int)
      requires Valid()
      modifies this`balance, this`position, this`tradeCount, this`lastTradedIdx, this`tick, trades
      ensures Valid()
      ensures managed == if old(position.assetIdx) >= 0
                         then UpdateBooks(old(Ledger()), slots[old(position.assetIdx)].symbol,
                                          slots[old(position.assetIdx)].currentPrice)
                         else old(Ledger())
      ensures chosen == (if managed.position.assetIdx < 0 && managed.balance > 0.5
                         then BestTrade(Candidates(), managed.balance, old(lastTradedIdx)) else -1)
      ensures chosen == -1 ==> Ledger() == managed && lastTradedIdx == old(lastTradedIdx)
      ensures chosen >= 0 ==>
                chosen < assetCount && position.assetIdx == lastTradedIdx == chosen && balance > 0.5
                && Ledger() == OpenBooks(managed, chosen, slots[chosen].currentPrice, slots[chosen].symbol)
      ensures tick == NextTick(old(tick))
      ensures old(Log()) <= Log()
      ensures old(balance) >= 0.5 ==> balance >= 0.5
    {
      managed, chosen := ManagePosition();
      AdvanceTick();
    }

    /** `engine->tick++` on the 32-bit counter. */
    method AdvanceTick()
      requires Valid()
      modifies this`tick
      ensures Valid() && tick == NextTick(old(tick))
    {
      tick := NextTick(tick);
    }
  }
}
