/** Dollar prices in NEAR (`tla-registry/src/pricing.rs`): conversion, slippage quotes, rate bounds. */
module Pricing {
  import opened Common

  const YOCTO_PER_NEAR: nat := 1_000_000_000_000_000_000_000_000
  const MAX_USD_MICRO: nat := 100_000_000_000_000
  const MAX_NEAR_USD_RATE_MICRO: nat := 1_000_000_000_000
  const BPS: nat := 10_000

  /** 128-bit arithmetic that panics instead of wrapping. */
  function Fit(n: nat): Option<nat> {
    if n <= MAX_U128 then Some(n) else None
  }

  function UsdToYocto(usd: nat, rate: nat): Option<nat> {
    if rate == 0 || usd > MAX_USD_MICRO then None
    else
      var scaled := Fit(usd * YOCTO_PER_NEAR);
      if scaled.None? then None else Some(scaled.value / rate)
  }

  /** The quote as computed: the whole and the partial basis points are buffered apart. */
  function QuoteWithSlippage(amount: nat, bps: nat): Option<nat> {
    if bps > BPS then None
    else
      var whole := Fit(amount / BPS * bps);
      var numerator := Fit(amount % BPS * bps);
      if whole.None? || numerator.None? then None
      else
        var partial := numerator.value / BPS + if numerator.value % BPS == 0 then 0 else 1;
        var buffer := Fit(whole.value + partial);
        if buffer.None? then None else Fit(amount + buffer.value)
  }

  function CeilDiv(a: nat, b: nat): nat
    requires b > 0
  {
    a / b + if a % b == 0 then 0 else 1
  }

  function RateLowerBound(current: nat, moveBps: nat): Option<nat>
    requires moveBps <= BPS
  {
    var scaled := Fit(current * (BPS - moveBps));
    if scaled.None? then None else Some(CeilDiv(scaled.value, BPS))
  }

  function RateUpperBound(current: nat, moveBps: nat): Option<nat> {
    var scaled := Fit(current * (BPS + moveBps));
    if scaled.None? then None else Some(scaled.value / BPS)
  }

  predicate RateIsUsable(rate: nat, floor: nat, ceiling: nat) {
    rate != 0 && floor <= rate <= ceiling
  }

  function RateWithinBounds(current: nat, proposed: nat, moveBps: nat, floor: nat, ceiling: nat): Option<bool> {
    if moveBps > BPS || proposed < floor || proposed > ceiling then Some(false)
    else if !RateIsUsable(current, floor, ceiling) then Some(true)
    else
      var lower, upper := RateLowerBound(current, moveBps), RateUpperBound(current, moveBps);
      if lower.None? || upper.None? then None else Some(lower.value <= proposed <= upper.value)
  }

  // ---------------------------------------------------------------- arithmetic

  lemma DivMod(a: nat, b: nat)
    requires b > 0
    ensures a == b * (a / b) + a % b && a % b < b
  {
  }

  lemma Grows(b: nat, q: nat)
    requires b > 0
    ensures q <= b * q
  {
  }

  lemma DivBelow(a: nat, b: nat)
    requires b > 0
    ensures a / b <= a
  {
    var q := a / b;
    DivMod(a, b);
    Grows(b, q);
  }

  lemma MulMono(a: nat, b: nat, c: nat)
    requires a <= b
    ensures a * c <= b * c
  {
  }

  lemma MulStrict(a: nat, b: nat, c: nat)
    requires a < b && c > 0
    ensures a * c < b * c
  {
  }

  lemma MulCancel(a: nat, b: nat, c: nat)
    requires a * c < b * c
    ensures a < b
  {
    if a >= b {
      MulMono(b, a, c);
    }
  }

  lemma SameQuotient(b: nat, q: nat, r: nat, q': nat, r': nat)
    requires b * q + r == b * q' + r' && r < b && r' < b
    ensures q == q' && r == r'
  {
    if q < q' {
      Step(b, q, q');
    } else if q' < q {
      Step(b, q', q);
    }
  }

  lemma Step(b: nat, q: nat, q': nat)
    requires q < q'
    ensures b * q + b <= b * q'
  {
    MulMono(q + 1, q', b);
  }

  lemma DivUnique(a: nat, b: nat, q: nat, r: nat)
    requires b > 0 && a == b * q + r && r < b
    ensures a / b == q && a % b == r
  {
    DivMod(a, b);
    SameQuotient(b, q, r, a / b, a % b);
  }

  // ---------------------------------------------------------------- theorems

  /** Within the fee cap and at any positive rate, conversion never overflows. */
  lemma ConversionNeverOverflows(usd: nat, rate: nat)
    requires usd <= MAX_USD_MICRO && rate > 0
    ensures UsdToYocto(usd, rate) == Some(usd * YOCTO_PER_NEAR / rate)
    ensures usd * YOCTO_PER_NEAR / rate <= MAX_USD_MICRO * YOCTO_PER_NEAR
  {
    MulMono(usd, MAX_USD_MICRO, YOCTO_PER_NEAR);
    DivBelow(usd * YOCTO_PER_NEAR, rate);
  }

  /** Splitting the amount into quotient and remainder is exact: the buffer is the rounded-up share. */
  lemma SplitBuffer(amount: nat, bps: nat)
    ensures amount / BPS * bps + CeilDiv(amount % BPS * bps, BPS) == CeilDiv(amount * bps, BPS)
  {
    var q, r := amount / BPS, amount % BPS;
    var q', r' := r * bps / BPS, r * bps % BPS;
    assert amount == BPS * q + r;
    assert amount * bps == BPS * (q * bps) + r * bps;
    assert r * bps == BPS * q' + r';
    assert amount * bps == BPS * (q * bps + q') + r';
    DivUnique(amount * bps, BPS, q * bps + q', r');
  }

  /** Every amount a conversion can yield is quoted without overflow, as the amount plus its rounded-up slippage. */
  lemma QuoteIsExact(amount: nat, bps: nat)
    requires amount <= MAX_USD_MICRO * YOCTO_PER_NEAR && bps <= BPS
    ensures QuoteWithSlippage(amount, bps) == Some(amount + CeilDiv(amount * bps, BPS))
  {
    SplitBuffer(amount, bps);
    var q, r := amount / BPS, amount % BPS;
    DivMod(amount, BPS);
    Share(q, bps, BPS);
    Below(r, bps, BPS);
    CeilAtMost(r * bps);
    QuoteFits(amount, bps, q * bps, r * bps);
  }

  lemma QuoteFits(amount: nat, bps: nat, whole: nat, numerator: nat)
    requires bps <= BPS && whole == amount / BPS * bps && numerator == amount % BPS * bps
    requires amount <= MAX_USD_MICRO * YOCTO_PER_NEAR
    requires whole <= amount && numerator <= BPS * BPS && CeilDiv(numerator, BPS) <= BPS + 1
    ensures QuoteWithSlippage(amount, bps) == Some(amount + (whole + CeilDiv(numerator, BPS)))
  {
  }

  lemma Share(q: nat, b: nat, k: nat)
    requires b <= k
    ensures q * b <= k * q
  {
    MulMono(b, k, q);
  }

  lemma Below(r: nat, b: nat, k: nat)
    requires r <= k && b <= k
    ensures r * b <= k * k
  {
    MulMono(r, k, b);
    MulMono(b, k, k);
  }

  lemma CeilAtMost(n: nat)
    requires n <= BPS * BPS
    ensures CeilDiv(n, BPS) <= BPS + 1
  {
  }

  /**
   A quote outlives a rate move: if the rate has fallen by no more than the slippage the quote
   was made with, the quote covers the later charge, short by at most one yocto.
   */
  lemma QuoteCoversLaterCharge(usd: nat, r0: nat, r1: nat, bps: nat)
    requires usd <= MAX_USD_MICRO && r0 > 0 && r1 > 0 && bps <= BPS
    requires r1 * (BPS + bps) >= r0 * BPS
    ensures UsdToYocto(usd, r0).Some? && UsdToYocto(usd, r1).Some?
    ensures var quote := QuoteWithSlippage(UsdToYocto(usd, r0).value, bps);
            quote.Some? && UsdToYocto(usd, r1).value <= quote.value + 1
  {
    ConversionNeverOverflows(usd, r0);
    ConversionNeverOverflows(usd, r1);
    var x := usd * YOCTO_PER_NEAR;
    QuoteIsExact(x / r0, bps);
    Covers(x, r0, r1, bps);
  }

  lemma Covers(x: nat, r0: nat, r1: nat, bps: nat)
    requires r0 > 0 && r1 > 0 && bps <= BPS
    requires r1 * (BPS + bps) >= r0 * BPS
    ensures x / r1 <= x / r0 + CeilDiv(x / r0 * bps, BPS) + 1
  {
    var a0, c := x / r0, x / r1;
    DivMod(x, r0);
    DivMod(x, r1);
    Buffered(a0, bps);
    assert c * r1 <= x < (a0 + 1) * r0 by {
      assert (a0 + 1) * r0 == r0 * a0 + r0;
    }
    ShortByOne(c, a0 + CeilDiv(a0 * bps, BPS), a0, r0, r1, bps);
  }

  lemma Buffered(a0: nat, bps: nat)
    ensures BPS * (a0 + CeilDiv(a0 * bps, BPS)) >= a0 * (BPS + bps)
  {
    DivMod(a0 * bps, BPS);
    assert a0 * (BPS + bps) == BPS * a0 + a0 * bps;
  }

  lemma ShortByOne(c: nat, q: nat, a0: nat, r0: nat, r1: nat, bps: nat)
    requires r0 > 0 && r1 > 0 && bps <= BPS
    requires r1 * (BPS + bps) >= r0 * BPS
    requires BPS * q >= a0 * (BPS + bps)
    requires c * r1 < (a0 + 1) * r0
    ensures c <= q + 1
  {
    calc {
      (c * BPS) * r1;
      == (c * r1) * BPS;
      < { MulStrict(c * r1, (a0 + 1) * r0, BPS); }
      ((a0 + 1) * r0) * BPS;
      == (r0 * BPS) * (a0 + 1);
      <= { MulMono(r0 * BPS, r1 * (BPS + bps), a0 + 1); }
      (r1 * (BPS + bps)) * (a0 + 1);
      == ((a0 + 1) * (BPS + bps)) * r1;
    }
    MulCancel(c * BPS, (a0 + 1) * (BPS + bps), r1);
    assert (a0 + 1) * (BPS + bps) == a0 * (BPS + bps) + BPS + bps;
  }

  /** The last yocto can really be missing: the bound of one is reached. */
  lemma ShortfallIsReached()
    ensures var quote := QuoteWithSlippage(UsdToYocto(1, 6).value, BPS);
            3 * (BPS + BPS) >= 6 * BPS && UsdToYocto(1, 3).value == quote.value + 1
  {
    ConversionNeverOverflows(1, 6);
    ConversionNeverOverflows(1, 3);
    QuoteIsExact(YOCTO_PER_NEAR / 6, BPS);
  }
}
