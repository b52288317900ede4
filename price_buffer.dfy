/** `PriceBuffer` of the C core: a fixed array of 30 prices written in place as a ring,
    with `head` (the next slot to write) and `count` (how many slots hold prices). */
module PriceHistory {
  import opened Common

  const PRICE_HISTORY_SIZE: nat := 30

  /** The ring slot of position `x`, counted modulo 30. */
  function Slot(x: int): (r: nat)
    ensures r < PRICE_HISTORY_SIZE
    ensures 0 <= x < PRICE_HISTORY_SIZE ==> r == x
  {
    x % PRICE_HISTORY_SIZE
  }

  /** `s` is what the ring `a` retains when its next write goes to `head`: its `|s|`
      entries, oldest first, are the slots that end just before `head`. */
  ghost predicate Mirrors(a: seq<real>, head: nat, s: seq<real>)
  {
    |a| == PRICE_HISTORY_SIZE && |s| <= PRICE_HISTORY_SIZE
    && forall k :: 0 <= k < |s| ==> s[k] == a[Slot(head - |s| + k)]
  }

  /** A slot `d` places behind `h` (1 <= d <= 29) is never `h` itself. */
  lemma SlotBehind(h: nat, d: int)
    requires h < PRICE_HISTORY_SIZE && 1 <= d < PRICE_HISTORY_SIZE
    ensures Slot(h - d) != h
  {
    if h >= d {
      assert Slot(h - d) == h - d;
    } else {
      assert (h - d) % PRICE_HISTORY_SIZE == h - d + PRICE_HISTORY_SIZE;
    }
  }

  /** Stepping a position forward commutes with reducing it to a slot. */
  lemma SlotNext(x: int)
    ensures Slot(Slot(x) + 1) == Slot(x + 1)
  {
    var q := x / PRICE_HISTORY_SIZE;
    assert x == q * PRICE_HISTORY_SIZE + x % PRICE_HISTORY_SIZE;
    if x % PRICE_HISTORY_SIZE == PRICE_HISTORY_SIZE - 1 {
      assert x + 1 == (q + 1) * PRICE_HISTORY_SIZE;
    } else {
      assert x + 1 == q * PRICE_HISTORY_SIZE + (x % PRICE_HISTORY_SIZE + 1);
    }
  }

  /** A whole turn of the ring lands on the same slot. */
  lemma SlotShiftUp(x: int)
    ensures Slot(x + PRICE_HISTORY_SIZE) == Slot(x)
  {
  }

  /** Writing at `head` and advancing it retains the last 30 of the old entries plus the new price. */
  lemma RingPush(a: seq<real>, h: nat, s: seq<real>, price: real)
    requires h < PRICE_HISTORY_SIZE && Mirrors(a, h, s)
    ensures Mirrors(a[h := price], Slot(h + 1), LastN(s + [price], PRICE_HISTORY_SIZE))
  {
    var a' := a[h := price];
    var h' := Slot(h + 1);
    var c := |s|;
    var want := LastN(s + [price], PRICE_HISTORY_SIZE);
    var c' := |want|;
    assert c' == MinNat(c + 1, PRICE_HISTORY_SIZE);
    assert h' == h + 1 || (h == PRICE_HISTORY_SIZE - 1 && h' == 0);
    forall k | 0 <= k < c'
      ensures want[k] == a'[Slot(h' - c' + k)]
    {
      RingPushAt(a, h, s, price, k);
    }
  }

  /** One entry of `RingPush`. */
  lemma RingPushAt(a: seq<real>, h: nat, s: seq<real>, price: real, k: nat)
    requires h < PRICE_HISTORY_SIZE && Mirrors(a, h, s) && k < MinNat(|s| + 1, PRICE_HISTORY_SIZE)
    ensures LastN(s + [price], PRICE_HISTORY_SIZE)[k]
            == a[h := price][Slot(Slot(h + 1) - MinNat(|s| + 1, PRICE_HISTORY_SIZE) + k)]
  {
    var c := |s|;
    var c' := MinNat(c + 1, PRICE_HISTORY_SIZE);
    var want := LastN(s + [price], PRICE_HISTORY_SIZE);
    SlotShiftUp(h + 1 - c' + k - PRICE_HISTORY_SIZE);
    assert Slot(Slot(h + 1) - c' + k) == Slot(h + 1 - c' + k) by {
      if h + 1 == PRICE_HISTORY_SIZE {
        assert Slot(h + 1) == 0;
        SlotShiftUp(- c' + k);
      }
    }
    if c < PRICE_HISTORY_SIZE {
      assert want == s + [price];
      if k < c {
        SlotBehind(h, c - k);
      } else {
        assert Slot(h - c + k) == h;
      }
    } else {
      assert want == (s + [price])[1..];
      if k < PRICE_HISTORY_SIZE - 1 {
        SlotBehind(h, c - (k + 1));
      } else {
        assert Slot(h + 1 - c' + k) == h;
      }
    }
  }

  /** The `i`-th of the `m` most recent prices sits `m - i` slots behind `head`. */
  lemma RecentSlot(a: seq<real>, h: nat, s: seq<real>, n: nat, i: nat)
    requires Mirrors(a, h, s) && i < MinNat(n, |s|)
    ensures LastN(s, n)[i] == a[Slot(h - MinNat(n, |s|) + i)]
  {
    var m := MinNat(n, |s|);
    var j := |s| - m + i;
    if |s| > n {
      assert LastN(s, n) == s[|s| - n..];
    }
    assert LastN(s, n)[i] == s[j];
    assert s[j] == a[Slot(h - |s| + j)];
  }

  /** One pass of `price_buffer_avg`'s loop: adding the slot it reads extends the sum by
      the next of the `m` most recent prices, and stepping the slot forward reaches the
      one after. */
  lemma AverageStep(a: seq<real>, h: nat, s: seq<real>, n: nat, i: nat, idx: nat, sum: real)
    requires Mirrors(a, h, s) && i < MinNat(n, |s|)
    requires idx == Slot(h - MinNat(n, |s|) + i) && sum == Sum(LastN(s, n)[..i])
    ensures idx < |a| && sum + a[idx] == Sum(LastN(s, n)[..i + 1])
    ensures Slot(idx + 1) == Slot(h - MinNat(n, |s|) + i + 1)
  {
    var w := LastN(s, n);
    RecentSlot(a, h, s, n, i);
    assert w[..i + 1] == w[..i] + [w[i]];
    SumAppend(w[..i], w[i]);
    SlotNext(h - MinNat(n, |s|) + i);
  }

  class PriceBuffer {
    const prices: array<real>
    var head: nat
    var count: nat
    /** The retained prices, oldest first: the `count` slots that end just before `head`. */
    ghost var contents: seq<real>

    ghost predicate Valid()
      reads this, prices
    {
      prices.Length == PRICE_HISTORY_SIZE && head < PRICE_HISTORY_SIZE && count <= PRICE_HISTORY_SIZE
      && |contents| == count && Mirrors(prices[..], head, contents)
    }

    /** A zeroed buffer, as `memset` leaves it. */
    constructor ()
      ensures Valid() && fresh(prices)
      ensures head == 0 && count == 0 && contents == []
    {
      prices := new real[PRICE_HISTORY_SIZE](_ => 0.0);
      head, count := 0, 0;
      new;
      contents := [];
    }

    /** `head = 0; count = 0;` as `engine_add_asset` does before the first push; the old
        slot values stay in the array but are no longer retained. */
    method Clear()
      requires Valid()
      modifies this
      ensures Valid() && head == 0 && count == 0 && contents == []
    {
      head, count := 0, 0;
      contents := [];
    }

    /** `price_buffer_push`: write at `head`, advance `head` modulo 30, grow `count` up to 30. */
    method Push(price: real)
      requires Valid()
      modifies this, prices
      ensures Valid()
      ensures head == Slot(old(head) + 1)
      ensures count == MinNat(old(count) + 1, PRICE_HISTORY_SIZE)
      ensures prices[Slot(head - 1)] == price
      ensures contents == LastN(old(contents) + [price], PRICE_HISTORY_SIZE)
    {
      ghost var a0, h0, c0 := prices[..], head, count;
      prices[head] := price;
      head := Slot(head + 1);
      if count < PRICE_HISTORY_SIZE {
        count := count + 1;
      }
      assert prices[..] == a0[h0 := price];
      RingPush(a0, h0, contents, price);
      contents := LastN(contents + [price], PRICE_HISTORY_SIZE);
    }

    /** `price_buffer_avg(buf, n)`: 0 for an empty buffer, otherwise the mean of the
        `min(n, count)` most recent prices, read with wrap-around; it lies between the
        smallest and the largest of them. */
    method Average(n: nat) returns (avg: real)
      requires Valid() && 1 <= n <= 255
      ensures count == 0 ==> avg == 0.0
      ensures count > 0 ==> avg == Mean(LastN(contents, n))
      ensures count > 0 ==> SeqMin(LastN(contents, n)) <= avg <= SeqMax(LastN(contents, n))
    {
      if count == 0 {
        return 0.0;
      }
      var m := if n > count then count else n;
      var sum := SumRecent(n, m);
      avg := sum / (m as real);
      MeanBetweenMinMax(LastN(contents, n));
    }

    /** The loop of `price_buffer_avg`: walk the `m` slots that end just before `head`,
        oldest first, wrapping at 30, and add up their prices. */
    method SumRecent(n: nat, m: nat) returns (sum: real)
      requires Valid() && m == MinNat(n, count)
      ensures sum == Sum(LastN(contents, n))
    {
      ghost var h, a, w := head, prices[..], LastN(contents, n);
      sum := 0.0;
      var idx := Slot(head - m + PRICE_HISTORY_SIZE);
      SlotShiftUp(h - m);
      var i := 0;
      while i < m
        invariant i <= m && idx == Slot(h - m + i)
        invariant sum == Sum(w[..i])
      {
        AverageStep(a, h, contents, n, i, idx, sum);
        sum := sum + prices[idx];
        idx := Slot(idx + 1);
        i := i + 1;
      }
      assert w[..m] == w;
    }
  }
}
