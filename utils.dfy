/** Exchange rates: the one-slot rate cache in front of the rate fetcher, the two
    lookups built on it and the conversion of an amount by the rate it yields.

    The fetcher's HTTP call is not modelled: each lookup receives the outcome the
    fetcher WOULD return (`None` on failure) and the current time in seconds; the
    outcome is used only when the lookup actually calls the fetcher. */
module Utils {
  import opened Wrappers
  import opened Models

  /** A rate as `Decimal(str(rate))` holds it: `units / 10^scale`. */
  datatype Rate = Rate(units: nat, scale: nat)

  /** The neutral rate `1` that the rate lookup returns when fetching fails. */
  const IdentityRate: Rate := Rate(1, 0)

  /** The fetched `conversion_rates` dictionary, in the order the API lists it. */
  type RateTable = seq<(string, Rate)>

  /** The cache keeps the table for an hour. */
  const Timeout: int := 3600

  /** The cache slot: the stored table and the time at which it expires. */
  type Slot = Option<(RateTable, int)>

  function Pow10(n: nat): (r: nat)
    ensures r >= 1
  {
    if n == 0 then 1 else 10 * Pow10(n - 1)
  }

  /** `table.get(code, None)`. */
  function RateOf(table: RateTable, code: string): (r: Option<Rate>)
    ensures r.Some? <==> exists i :: 0 <= i < |table| && table[i].0 == code
    ensures r.Some? ==> exists i :: 0 <= i < |table| && table[i] == (code, r.value)
  {
    if table == [] then None
    else if table[0].0 == code then Some(table[0].1)
    else
      var r := RateOf(table[1..], code);
      assert forall i :: 1 <= i < |table| ==> table[i] == table[1..][i - 1];
      r
  }

  /** `cache.get('conversion_rates')`: the stored table while it has not expired. */
  function CacheGet(slot: Slot, now: int): (r: Option<RateTable>)
    ensures r.Some? <==> slot.Some? && now < slot.value.1
    ensures r.Some? ==> r.value == slot.value.0
  {
    match slot
    case Some((table, expiry)) => if now < expiry then Some(table) else None
    case None => None
  }

  /** Python's truthiness of the table: `None` and the empty table are both falsy. */
  predicate IsUsable(t: Option<RateTable>) {
    t.Some? && t.value != []
  }

  /** What one pass through the shared cache logic yields: the table it serves
      (`None` when the fetcher failed), the slot afterwards, and whether it called
      the fetcher. */
  datatype Lookup = Lookup(table: Option<RateTable>, slot: Slot, fetched: bool)

  /** The fetcher calls of one cache lookup. */
  function FetchCount(l: Lookup): nat {
    if l.fetched then 1 else 0
  }

  /** Serve the cached table if it is usable; otherwise call the fetcher and, if it
      returned a usable table, store it for `Timeout` seconds and serve it. */
  function LookupTable(slot: Slot, now: int, fetch: Option<RateTable>): (r: Lookup)
    ensures r.fetched <==> !IsUsable(CacheGet(slot, now))
    ensures r.table.Some? ==> r.table.value != []
    ensures r.slot == slot || (r.fetched && IsUsable(fetch) && r.slot == Some((fetch.value, now + Timeout)))
  {
    var cached := CacheGet(slot, now);
    if IsUsable(cached) then Lookup(cached, slot, false)
    else if IsUsable(fetch) then Lookup(fetch, Some((fetch.value, now + Timeout)), true)
    else Lookup(None, slot, true)
  }

  /** `get_exchange_rates`: the table, or `None` when fetching failed. */
  function ExchangeRates(slot: Slot, now: int, fetch: Option<RateTable>): Option<RateTable> {
    LookupTable(slot, now, fetch).table
  }

  /** `get_exchange_rate_for_target_currency`: the neutral rate 1 when fetching
      failed, otherwise the currency's entry in the table (`None` when missing). */
  function RateFor(slot: Slot, now: int, fetch: Option<RateTable>, code: string): (r: Option<Rate>)
    ensures ExchangeRates(slot, now, fetch).None? ==> r == Some(IdentityRate)
    ensures ExchangeRates(slot, now, fetch).Some? ==> r == RateOf(ExchangeRates(slot, now, fetch).value, code)
  {
    match LookupTable(slot, now, fetch).table
    case None => Some(IdentityRate)
    case Some(table) => RateOf(table, code)
  }

  /** A live, usable table is served as it is and the fetcher is not called; an
      empty stored table counts as a miss. */
  lemma CachedTableServed(slot: Slot, now: int, fetch: Option<RateTable>)
    requires slot.Some? && now < slot.value.1
    ensures slot.value.0 != [] ==> LookupTable(slot, now, fetch) == Lookup(Some(slot.value.0), slot, false)
    ensures slot.value.0 == [] ==> LookupTable(slot, now, fetch).fetched
  {
  }

  /** After a miss and a successful fetch at time `t`, every lookup before `t + 3600`
      serves that table without fetching again, and the first lookup at or after
      `t + 3600` calls the fetcher once more. */
  lemma FetchedTableLivesOneHour(slot: Slot, t: int, fetch: Option<RateTable>, t2: int, fetch2: Option<RateTable>)
    requires !IsUsable(CacheGet(slot, t)) && IsUsable(fetch)
    ensures var first := LookupTable(slot, t, fetch);
      first.fetched && first.table == fetch && first.slot == Some((fetch.value, t + Timeout))
    ensures var second := LookupTable(LookupTable(slot, t, fetch).slot, t2, fetch2);
      (t2 < t + Timeout ==> second == Lookup(fetch, LookupTable(slot, t, fetch).slot, false))
      && (t + Timeout <= t2 ==> second.fetched)
  {
  }

  /** When fetching fails nothing is stored: the rate lookup answers 1 and the table
      lookup answers `None`, the two deliberately different fallbacks. */
  lemma FailedFetchFallbacks(slot: Slot, now: int, fetch: Option<RateTable>, code: string)
    requires !IsUsable(CacheGet(slot, now)) && !IsUsable(fetch)
    ensures LookupTable(slot, now, fetch).slot == slot
    ensures RateFor(slot, now, fetch, code) == Some(IdentityRate)
    ensures ExchangeRates(slot, now, fetch) == None
  {
  }

  /** A currency missing from a usable table has no rate. */
  lemma MissingCurrencyHasNoRate(slot: Slot, now: int, fetch: Option<RateTable>, code: string)
    requires ExchangeRates(slot, now, fetch).Some?
    requires forall i :: 0 <= i < |ExchangeRates(slot, now, fetch).value| ==> ExchangeRates(slot, now, fetch).value[i].0 != code
    ensures RateFor(slot, now, fetch, code) == None
  {
  }

  /** `r` is `n / d` rounded to the nearest integer, ties going to the even one:
      Python's `round` on a `Decimal` under the default (half-even) context. */
  predicate IsHalfEvenRounding(r: int, n: int, d: int)
    requires d > 0
  {
    var e := r * d - n;
    var twice := if e < 0 then -2 * e else 2 * e;
    twice < d || (twice == d && r % 2 == 0)
  }

  function RoundHalfEven(n: int, d: int): (r: int)
    requires d > 0
    ensures IsHalfEvenRounding(r, n, d)
  {
    var q := n / d;
    var rem := n % d;
    assert n == q * d + rem;
    if 2 * rem < d then q
    else if 2 * rem > d then (assert (q + 1) * d - n == d - rem; q + 1)
    else if q % 2 == 0 then q
    else (assert (q + 1) * d - n == d - rem; q + 1)
  }

  /** Two distinct multiples of `d` lie at least `d` apart, and exactly `d` apart
      only when the factors are consecutive. */
  lemma MultiplesApart(lo: int, hi: int, d: int)
    requires lo < hi && d > 0
    ensures hi * d - lo * d >= d
    ensures hi * d - lo * d == d ==> hi == lo + 1
  {
    var k := hi - lo;
    assert hi * d - lo * d == k * d;
    if k >= 2 {
      assert k * d == d + (k - 1) * d;
      assert (k - 1) * d >= d;
    }
  }

  /** Half-even rounding has exactly one result. */
  lemma HalfEvenRoundingIsUnique(r1: int, r2: int, n: int, d: int)
    requires d > 0 && IsHalfEvenRounding(r1, n, d) && IsHalfEvenRounding(r2, n, d)
    ensures r1 == r2
  {
    // two distinct roundings lie d or more apart, yet both lie within d/2 of n:
    // only two ties on consecutive integers could do that, and one of them is odd
    if r1 < r2 {
      MultiplesApart(r1, r2, d);
      assert false;
    } else if r2 < r1 {
      MultiplesApart(r2, r1, d);
      assert false;
    }
  }

  /** Python truthiness of the rate: `None` and a zero rate are falsy. */
  predicate IsTruthy(rate: Option<Rate>) {
    rate.Some? && rate.value.units != 0
  }

  /** The arithmetic of `convert_to_EUR` once the rate is known: `amount / rate`
      rounded half-even to cents when the rate is truthy, and 0 otherwise. In cents,
      `amount / rate` is `amount * 10^scale / units`. */
  function ConvertedAmount(amount: Cents, rate: Option<Rate>): (r: Cents)
    ensures !IsTruthy(rate) ==> r == 0
    ensures IsTruthy(rate) ==> IsHalfEvenRounding(r, amount * Pow10(rate.value.scale), rate.value.units)
  {
    if IsTruthy(rate) then RoundHalfEven(amount * Pow10(rate.value.scale), rate.value.units)
    else 0
  }

  /** Under the neutral rate 1 the amount comes back unchanged. */
  lemma IdentityRateKeepsAmount(amount: Cents)
    ensures ConvertedAmount(amount, Some(IdentityRate)) == amount
  {
    HalfEvenRoundingIsUnique(ConvertedAmount(amount, Some(IdentityRate)), amount, amount, 1);
  }

  /** 100.00 at a rate of 0.9 converts to 111.11. */
  lemma ConversionExample()
    ensures ConvertedAmount(10000, Some(Rate(9, 1))) == 11111
  {
    HalfEvenRoundingIsUnique(ConvertedAmount(10000, Some(Rate(9, 1))), 11111, 100000, 9);
  }

  /** Multiplying by a non-negative factor keeps the order. */
  lemma ScaleKeepsOrder(a: int, b: int, p: nat)
    requires a <= b
    ensures a * p <= b * p
  {
    assert b * p - a * p == (b - a) * p;
  }

  /** A larger amount never converts to a smaller one at the same rate. */
  lemma ConversionIsMonotonic(a: Cents, b: Cents, rate: Option<Rate>)
    requires a <= b
    ensures ConvertedAmount(a, rate) <= ConvertedAmount(b, rate)
  {
    if IsTruthy(rate) {
      var p, d := Pow10(rate.value.scale), rate.value.units;
      var na, nb := a * p, b * p;
      ScaleKeepsOrder(a, b, p);
      var ra, rb := ConvertedAmount(a, rate), ConvertedAmount(b, rate);
      assert IsHalfEvenRounding(ra, na, d) && IsHalfEvenRounding(rb, nb, d);
      if ra > rb {
        // ra*d lies d or more above rb*d, yet within d/2 of na <= nb: two ties on
        // consecutive integers, one of them odd
        MultiplesApart(rb, ra, d);
        assert false;
      }
    }
  }

  /** A non-negative amount never converts to a negative one, since no rate is
      negative. */
  lemma ConversionKeepsSign(amount: Cents, rate: Option<Rate>)
    requires amount >= 0
    ensures ConvertedAmount(amount, rate) >= 0
  {
    ConversionIsMonotonic(0, amount, rate);
    if IsTruthy(rate) {
      HalfEvenRoundingIsUnique(ConvertedAmount(0, rate), 0, 0, rate.value.units);
    }
  }

  /** The finance tracker's rate cache: a single process-wide slot. The ghost
      counter `fetches` counts the calls to the fetcher. */
  class RateCache {
    var slot: Slot
    ghost var fetches: nat

    constructor ()
      ensures slot.None? && fetches == 0
    {
      slot := None;
      fetches := 0;
    }

    /** Lines shared by both lookups: `cache.get`, and on a miss the fetch and the
        `cache.set` with timeout 3600. */
    method LoadTable(now: int, fetch: Option<RateTable>) returns (table: Option<RateTable>)
      modifies this
      ensures var l := LookupTable(old(slot), now, fetch);
        table == l.table && slot == l.slot && fetches == old(fetches) + FetchCount(l)
    {
      var cached := CacheGet(slot, now);
      if cached.Some? && cached.value != [] {
        table := cached;
      } else {
        fetches := fetches + 1;
        if fetch.Some? && fetch.value != [] {
          slot := Some((fetch.value, now + Timeout));
          table := fetch;
        } else {
          table := None;
        }
      }
    }

    /** `get_exchange_rates`. */
    method GetExchangeRates(now: int, fetch: Option<RateTable>) returns (table: Option<RateTable>)
      modifies this
      ensures table == ExchangeRates(old(slot), now, fetch)
      ensures slot == LookupTable(old(slot), now, fetch).slot
      ensures fetches == old(fetches) + FetchCount(LookupTable(old(slot), now, fetch))
    {
      table := LoadTable(now, fetch);
    }

    /** `get_exchange_rate_for_target_currency`. */
    method GetExchangeRateFor(code: string, now: int, fetch: Option<RateTable>) returns (rate: Option<Rate>)
      modifies this
      ensures rate == RateFor(old(slot), now, fetch, code)
      ensures slot == LookupTable(old(slot), now, fetch).slot
      ensures fetches == old(fetches) + FetchCount(LookupTable(old(slot), now, fetch))
    {
      var table := LoadTable(now, fetch);
      if table.None? {
        rate := Some(IdentityRate);
      } else {
        rate := RateOf(table.value, code);
      }
    }

    /** `convert_to_EUR`: look the rate up through the cache, then convert. */
    method ConvertToEur(amount: Cents, code: string, now: int, fetch: Option<RateTable>) returns (r: Cents)
      modifies this
      ensures r == ConvertedAmount(amount, RateFor(old(slot), now, fetch, code))
      ensures slot == LookupTable(old(slot), now, fetch).slot
      ensures fetches == old(fetches) + FetchCount(LookupTable(old(slot), now, fetch))
    {
      var rate := GetExchangeRateFor(code, now, fetch);
      r := ConvertedAmount(amount, rate);
    }
  }

  /** Two lookups less than an hour apart call the fetcher at most once, provided
      the first call's fetch (if it makes one) succeeds. */
  lemma TwoLookupsFetchAtMostOnce(slot: Slot, t: int, dt: nat, fetch1: Option<RateTable>, fetch2: Option<RateTable>)
    requires IsUsable(fetch1) && dt < Timeout
    ensures var first := LookupTable(slot, t, fetch1);
      !(first.fetched && LookupTable(first.slot, t + dt, fetch2).fetched)
  {
  }

  /** With an empty cache and a failing fetcher, conversion returns the amount
      unchanged: it divides by the neutral rate 1. */
  lemma ConversionWithoutRates(amount: Cents, code: string, now: int, fetch: Option<RateTable>)
    requires !IsUsable(fetch)
    ensures ConvertedAmount(amount, RateFor(None, now, fetch, code)) == amount
  {
    IdentityRateKeepsAmount(amount);
  }
}
