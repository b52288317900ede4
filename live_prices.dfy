/** The live-price hooks of the dashboard and of the terminal: how a fetched crypto or
    commodity quote is merged into the shown prices, and how the time since the last
    update is written. The fetches are inputs (`None` when the fetch failed); the
    current time is a parameter, in milliseconds like the dates it is compared with. */
module LivePrices {
  import opened Common
  import opened Strs

  /** A shown asset: the fields the hooks write, and every other field of the record,
      which the object spread carries along. */
  datatype Asset = Asset(spot: real, chgPct: real, chg: real, hi52: Option<real>, lo52: Option<real>,
                         extra: map<string, Json>)

  /** `{ ...undefined }`: spreading a missing record contributes nothing. */
  const BLANK: Asset := Asset(0.0, 0.0, 0.0, None, None, map[])

  // ---------------------------------------------------------------------------
  // Crypto quotes
  // ---------------------------------------------------------------------------

  /** One coin of the price service's answer (`data.bitcoin`, `data.ethereum`). */
  datatype CoinQuote = CoinQuote(usd: Option<real>, usd24hChange: Option<real>)

  /** The service's answer; a missing coin is `None`. */
  datatype CoinReply = CoinReply(bitcoin: Option<CoinQuote>, ethereum: Option<CoinQuote>)

  /** A coin's new spot and daily change in percent. */
  datatype CoinUpdate = CoinUpdate(spot: Option<real>, chgPct: real)

  datatype CryptoPrices = CryptoPrices(btc: CoinUpdate, eth: CoinUpdate)

  /** `{ spot: q?.usd, chgPct: q?.usd_24h_change || 0 }`. */
  function CoinOf(q: Option<CoinQuote>): CoinUpdate {
    if q.None? then CoinUpdate(None, 0.0) else CoinUpdate(q.value.usd, OrZero(q.value.usd24hChange))
  }

  /** The dashboard's crypto fetch: `None` when the fetch failed. */
  function DashboardCrypto(reply: Option<CoinReply>): Option<CryptoPrices> {
    if reply.None? then None else Some(CryptoPrices(CoinOf(reply.value.bitcoin), CoinOf(reply.value.ethereum)))
  }

  /** `{ ...prev, spot, chgPct, chg: spot * (chgPct / 100) }`. */
  function WithCoin(prev: Asset, spot: real, chgPct: real): (a: Asset)
    ensures a.spot == spot && a.chgPct == chgPct && a.chg == spot * (chgPct / 100.0)
    ensures a.hi52 == prev.hi52 && a.lo52 == prev.lo52 && a.extra == prev.extra
  {
    prev.(spot := spot, chgPct := chgPct, chg := spot * (chgPct / 100.0))
  }

  /** The record under `key`, or the blank one when there is none. */
  function Prev(prices: map<string, Asset>, key: string): Asset {
    if key in prices then prices[key] else BLANK
  }

  // ---------------------------------------------------------------------------
  // Commodity quotes
  // ---------------------------------------------------------------------------

  /** One entry of the commodities answer. */
  datatype CommodityQuote = CommodityQuote(price: Option<real>, changePercent: Option<real>, change: Option<real>,
                                           high52: Option<real>, low52: Option<real>)

  /** The update kept for a commodity with a truthy price. */
  datatype Update = Update(spot: real, chgPct: real, chg: real, hi52: Option<real>, lo52: Option<real>)

  function UpdateOf(q: CommodityQuote): (u: Update)
    requires TruthyNum(q.price)
    ensures u.spot == q.price.value && u.chgPct == OrZero(q.changePercent) && u.chg == OrZero(q.change)
  {
    Update(q.price.value, OrZero(q.changePercent), OrZero(q.change), q.high52, q.low52)
  }

  /** The `updates` object the `forEach` fills from the answer's entries. */
  function UpdatesOf(entries: seq<(string, CommodityQuote)>): map<string, Update>
    decreases |entries|
  {
    if entries == [] then map[]
    else
      var m := UpdatesOf(entries[..|entries| - 1]);
      var (key, q) := entries[|entries| - 1];
      if TruthyNum(q.price) then m[key := UpdateOf(q)] else m
  }

  /** Only keys with a truthy price get an update, each from that key's quote. */
  lemma {:induction false} UpdatesKeys(entries: seq<(string, CommodityQuote)>)
    ensures forall k :: k in UpdatesOf(entries) ==>
      exists i :: 0 <= i < |entries| && entries[i].0 == k && TruthyNum(entries[i].1.price)
        && UpdatesOf(entries)[k] == UpdateOf(entries[i].1)
    ensures forall i :: 0 <= i < |entries| && TruthyNum(entries[i].1.price) ==> entries[i].0 in UpdatesOf(entries)
    decreases |entries|
  {
    if entries != [] {
      var init := entries[..|entries| - 1];
      UpdatesKeys(init);
      assert forall i :: 0 <= i < |init| ==> init[i] == entries[i];
    }
  }

  /** The commodity fetch: the `forEach` that fills `updates`. */
  method BuildUpdates(entries: seq<(string, CommodityQuote)>) returns (updates: map<string, Update>)
    ensures updates == UpdatesOf(entries)
  {
    updates := map[];
    for i := 0 to |entries|
      invariant updates == UpdatesOf(entries[..i])
    {
      assert entries[..i + 1][..i] == entries[..i];
      var (key, q) := entries[i];
      if q.price.Some? && q.price.value != 0.0 {
        updates := updates[key := UpdateOf(q)];
      }
    }
    assert entries[..|entries|] == entries;
  }

  /** `{ ...prev, spot, chgPct, chg, hi52: u.hi52 || prev.hi52, lo52: u.lo52 || prev.lo52 }`. */
  function WithUpdate(prev: Asset, u: Update): (a: Asset)
    ensures a.spot == u.spot && a.chgPct == u.chgPct && a.chg == u.chg && a.extra == prev.extra
    ensures a.hi52 == (if TruthyNum(u.hi52) then u.hi52 else prev.hi52)
    ensures a.lo52 == (if TruthyNum(u.lo52) then u.lo52 else prev.lo52)
  {
    Asset(u.spot, u.chgPct, u.chg, if TruthyNum(u.hi52) then u.hi52 else prev.hi52,
          if TruthyNum(u.lo52) then u.lo52 else prev.lo52, prev.extra)
  }

  // ---------------------------------------------------------------------------
  // The dashboard's merge
  // ---------------------------------------------------------------------------

  /** Whether the crypto answer replaces `key` (`btc` or `eth` with a truthy spot). */
  predicate CoinReplaces(crypto: Option<CryptoPrices>, key: string) {
    crypto.Some? &&
    ((key == "btc" && TruthyNum(crypto.value.btc.spot)) || (key == "eth" && TruthyNum(crypto.value.eth.spot)))
  }

  function CoinFor(c: CryptoPrices, key: string): CoinUpdate {
    if key == "btc" then c.btc else c.eth
  }

  /** The prices after the coin replacement: `btc` and `eth` are replaced when the
      answer gives them a truthy spot. */
  function Coins(prev: map<string, Asset>, crypto: Option<CryptoPrices>): map<string, Asset> {
    if crypto.None? then prev
    else
      var c := crypto.value;
      var m := if TruthyNum(c.btc.spot) then prev["btc" := WithCoin(Prev(prev, "btc"), c.btc.spot.value, c.btc.chgPct)] else prev;
      if TruthyNum(c.eth.spot) then m["eth" := WithCoin(Prev(prev, "eth"), c.eth.spot.value, c.eth.chgPct)] else m
  }

  /** The dashboard's new prices: after the coins, each commodity update applies to a
      key that was there before, built from that key's old record. */
  function Merged(prev: map<string, Asset>, crypto: Option<CryptoPrices>, updates: map<string, Update>): map<string, Asset> {
    var coins := Coins(prev, crypto);
    map k | k in coins :: if k in updates && k in prev then WithUpdate(prev[k], updates[k]) else coins[k]
  }

  /** The `setPrices` updater: copy the old prices, replace the coins, then apply each
      commodity update in `order` (the keys of `updates`). */
  method MergePrices(prev: map<string, Asset>, crypto: Option<CryptoPrices>, updates: Option<map<string, Update>>,
                     order: seq<string>)
    returns (updated: map<string, Asset>)
    requires updates.Some? ==> forall k :: k in order <==> k in updates.value
    ensures updated == Merged(prev, crypto, updates.GetOr(map[]))
  {
    updated := prev;
    if crypto.Some? {
      var c := crypto.value;
      if c.btc.spot.Some? && c.btc.spot.value != 0.0 {
        updated := updated["btc" := WithCoin(Prev(prev, "btc"), c.btc.spot.value, c.btc.chgPct)];
      }
      if c.eth.spot.Some? && c.eth.spot.value != 0.0 {
        updated := updated["eth" := WithCoin(Prev(prev, "eth"), c.eth.spot.value, c.eth.chgPct)];
      }
    }
    assert updated == Coins(prev, crypto);
    if updates.Some? {
      updated := ApplyUpdates(prev, updated, updates.value, order);
    }
  }

  /** The commodity `forEach` of the updater, over the keys of `updates` in `order`. */
  method ApplyUpdates(prev: map<string, Asset>, coins: map<string, Asset>, updates: map<string, Update>, order: seq<string>)
    returns (updated: map<string, Asset>)
    requires forall k :: k in order <==> k in updates
    requires prev.Keys <= coins.Keys
    ensures updated == map k | k in coins :: if k in updates && k in prev then WithUpdate(prev[k], updates[k]) else coins[k]
  {
    updated := coins;
    for i := 0 to |order|
      invariant updated.Keys == coins.Keys
      invariant forall k :: k in updated ==>
        updated[k] == if k in order[..i] && k in prev then WithUpdate(prev[k], updates[k]) else coins[k]
    {
      var key := order[i];
      assert order[..i + 1] == order[..i] + [key];
      if key in prev {
        updated := updated[key := WithUpdate(prev[key], updates[key])];
      }
    }
    assert order[..|order|] == order;
  }

  /** The merge adds no key but a replaced coin, ignores updates for unknown keys, and
      leaves every key neither updated nor replaced as it was. */
  lemma MergedKeeps(prev: map<string, Asset>, crypto: Option<CryptoPrices>, updates: map<string, Update>)
    ensures var m := Merged(prev, crypto, updates);
      (forall k :: k in m <==> k in prev || CoinReplaces(crypto, k))
      && (forall k :: k in prev && k !in updates && !CoinReplaces(crypto, k) ==> m[k] == prev[k])
  {
    CoinsKeeps(prev, crypto);
  }

  /** A key with an update that was there before takes the update, keeping a falsy 52-week
      bound from its old record; a replaced coin without one gets the API spot and
      `chg = spot·chgPct/100`. */
  lemma MergedValues(prev: map<string, Asset>, crypto: Option<CryptoPrices>, updates: map<string, Update>, k: string)
    ensures var m := Merged(prev, crypto, updates);
      (k in updates && k in prev ==>
         k in m && m[k].spot == updates[k].spot && m[k].chg == updates[k].chg
         && m[k].hi52 == (if TruthyNum(updates[k].hi52) then updates[k].hi52 else prev[k].hi52)
         && m[k].extra == prev[k].extra)
      && (CoinReplaces(crypto, k) && !(k in updates && k in prev) ==>
         k in m && m[k].spot == CoinFor(crypto.value, k).spot.value
         && m[k].chg == m[k].spot * (m[k].chgPct / 100.0))
  {
    var coins := Coins(prev, crypto);
    CoinsAt(prev, crypto, k);
    if k in updates && k in prev {
      assert k in coins;
      assert Merged(prev, crypto, updates)[k] == WithUpdate(prev[k], updates[k]);
    }
    if CoinReplaces(crypto, k) && !(k in updates && k in prev) {
      assert k in coins;
      assert Merged(prev, crypto, updates)[k] == coins[k];
    }
  }

  /** The coin step replaces exactly the coins with a truthy spot. */
  lemma CoinsKeeps(prev: map<string, Asset>, crypto: Option<CryptoPrices>)
    ensures forall k :: k in Coins(prev, crypto) <==> k in prev || CoinReplaces(crypto, k)
    ensures forall k :: k in Coins(prev, crypto) ==>
      Coins(prev, crypto)[k] == if CoinReplaces(crypto, k)
        then WithCoin(Prev(prev, k), CoinFor(crypto.value, k).spot.value, CoinFor(crypto.value, k).chgPct)
        else prev[k]
  {
  }

  /** `CoinsKeeps` at one key. */
  lemma CoinsAt(prev: map<string, Asset>, crypto: Option<CryptoPrices>, k: string)
    ensures k in Coins(prev, crypto) <==> k in prev || CoinReplaces(crypto, k)
    ensures CoinReplaces(crypto, k) ==>
      k in Coins(prev, crypto)
      && Coins(prev, crypto)[k] == WithCoin(Prev(prev, k), CoinFor(crypto.value, k).spot.value, CoinFor(crypto.value, k).chgPct)
  {
    CoinsKeeps(prev, crypto);
  }

  // ---------------------------------------------------------------------------
  // The terminal's merge
  // ---------------------------------------------------------------------------

  /** The terminal's crypto fetch. A missing or zero spot falls back to the spot shown
      when the fetch was made (`shown`); without one to fall back to, reading it throws
      and the fetch yields `None`. */
  function TerminalCrypto(reply: Option<CoinReply>, shown: map<string, Asset>): (r: Option<CryptoPrices>)
    ensures r.Some? ==> r.value.btc.spot.Some? && r.value.eth.spot.Some?
    ensures r.Some? ==>
      && reply.Some? && r.value.btc.chgPct == CoinOf(reply.value.bitcoin).chgPct
      && r.value.eth.chgPct == CoinOf(reply.value.ethereum).chgPct
    ensures (reply.Some? && (TruthyNum(CoinOf(reply.value.bitcoin).spot) || "btc" in shown)
             && (TruthyNum(CoinOf(reply.value.ethereum).spot) || "eth" in shown)) ==> r.Some?
  {
    if reply.None? then None
    else
      var b, e := CoinOf(reply.value.bitcoin), CoinOf(reply.value.ethereum);
      if !TruthyNum(b.spot) && "btc" !in shown then None
      else if !TruthyNum(e.spot) && "eth" !in shown then None
      else
        var bs := if TruthyNum(b.spot) then b.spot.value else shown["btc"].spot;
        var es := if TruthyNum(e.spot) then e.spot.value else shown["eth"].spot;
        Some(CryptoPrices(CoinUpdate(Some(bs), b.chgPct), CoinUpdate(Some(es), e.chgPct)))
  }

  /** `{ ...prev, btc: { ...prev.btc, … }, eth: { ...prev.eth, … } }`, or `prev` when the
      fetch failed. */
  function TerminalMerged(prev: map<string, Asset>, crypto: Option<CryptoPrices>): map<string, Asset>
    requires crypto.Some? ==> crypto.value.btc.spot.Some? && crypto.value.eth.spot.Some?
  {
    if crypto.None? then prev
    else
      var c := crypto.value;
      prev["btc" := WithCoin(Prev(prev, "btc"), c.btc.spot.value, c.btc.chgPct)]
          ["eth" := WithCoin(Prev(prev, "eth"), c.eth.spot.value, c.eth.chgPct)]
  }

  /** A refresh touches only `btc` and `eth`; each gets the API spot when it is truthy and
      its old spot otherwise, the API change or 0, and `chg = spot·chgPct/100`. */
  lemma TerminalRefresh(prev: map<string, Asset>, reply: Option<CoinReply>, shown: map<string, Asset>)
    ensures var crypto := TerminalCrypto(reply, shown);
      var m := TerminalMerged(prev, crypto);
      (forall k :: k in prev && k != "btc" && k != "eth" ==> k in m && m[k] == prev[k])
      && (crypto.None? ==> m == prev)
      && (crypto.Some? ==>
            m.Keys == prev.Keys + {"btc", "eth"}
            && m["btc"].chg == m["btc"].spot * (m["btc"].chgPct / 100.0)
            && m["eth"].chg == m["eth"].spot * (m["eth"].chgPct / 100.0)
            && m["btc"].spot == (if TruthyNum(CoinOf(reply.value.bitcoin).spot) then CoinOf(reply.value.bitcoin).spot.value
                                 else shown["btc"].spot)
            && m["btc"].chgPct == CoinOf(reply.value.bitcoin).chgPct
            && m["btc"].extra == Prev(prev, "btc").extra
            && m["eth"].spot == (if TruthyNum(CoinOf(reply.value.ethereum).spot) then CoinOf(reply.value.ethereum).spot.value
                                 else shown["eth"].spot)
            && m["eth"].chgPct == CoinOf(reply.value.ethereum).chgPct
            && m["eth"].extra == Prev(prev, "eth").extra)
  {
  }

  // ---------------------------------------------------------------------------
  // formatLastUpdated
  // ---------------------------------------------------------------------------

  /** Whole seconds from `date` to `now` (`Math.floor((now − date) / 1000)`). */
  function Seconds(date: real, now: real): int {
    ((now - date) / 1000.0).Floor
  }

  /** The dashboard's label: `Never` when nothing was fetched yet (`date` is a `Date`
      object once set, so only `null` is falsy), the clock time within the hour (`clock` gives it),
      whole hours within the day, whole days after. */
  function DashboardLastUpdated(date: Option<real>, now: real, clock: real -> string): string {
    if date.None? then "Never"
    else
      var s := Seconds(date.value, now);
      if s < 3600 then "at " + clock(date.value)
      else if s < 86400 then NatToString(s / 3600) + "h ago"
      else NatToString(s / 86400) + "d ago"
  }

  /** Within the day but past the hour the label is `<h>h ago` with `h = ⌊s/3600⌋`
      between 1 and 23, and that number reads back; past the day it is `<d>d ago`. */
  lemma DashboardLabels(date: real, now: real, clock: real -> string)
    ensures var s := Seconds(date, now);
      var text := DashboardLastUpdated(Some(date), now, clock);
      (3600 <= s < 86400 ==>
         1 <= s / 3600 <= 23 && text == NatToString(s / 3600) + "h ago"
         && ParseInt(text[..|text| - 5]) == Some(s / 3600))
      && (s >= 86400 ==>
         s / 86400 >= 1 && text == NatToString(s / 86400) + "d ago"
         && ParseInt(text[..|text| - 5]) == Some(s / 86400))
  {
    var s := Seconds(date, now);
    var text := DashboardLastUpdated(Some(date), now, clock);
    if 3600 <= s < 86400 {
      assert text[..|text| - 5] == NatToString(s / 3600);
      ParseIntOfNatToString(s / 3600);
    } else if s >= 86400 {
      assert text[..|text| - 5] == NatToString(s / 86400);
      ParseIntOfNatToString(s / 86400);
    }
  }

  /** The terminal's label: `Never` before the first fetch, `Just now` within the minute, whole minutes within
      the hour, whole hours after. */
  function TerminalLastUpdated(date: Option<real>, now: real): string {
    if date.None? then "Never"
    else
      var s := Seconds(date.value, now);
      if s < 60 then "Just now"
      else if s < 3600 then NatToString(s / 60) + "m ago"
      else NatToString(s / 3600) + "h ago"
  }

  /** Minutes are between 1 and 59 and hours at least 1, and each number reads back. */
  lemma TerminalLabels(date: real, now: real)
    ensures var s := Seconds(date, now);
      var text := TerminalLastUpdated(Some(date), now);
      (s < 60 ==> text == "Just now")
      && (60 <= s < 3600 ==>
            1 <= s / 60 <= 59 && ParseInt(text[..|text| - 5]) == Some(s / 60) && text[|text| - 5..] == "m ago")
      && (s >= 3600 ==>
            s / 3600 >= 1 && ParseInt(text[..|text| - 5]) == Some(s / 3600) && text[|text| - 5..] == "h ago")
  {
    var s := Seconds(date, now);
    var text := TerminalLastUpdated(Some(date), now);
    if 60 <= s < 3600 {
      assert text[..|text| - 5] == NatToString(s / 60);
      ParseIntOfNatToString(s / 60);
    } else if s >= 3600 {
      assert text[..|text| - 5] == NatToString(s / 3600);
      ParseIntOfNatToString(s / 3600);
    }
  }
}
