/** The stored NEAR price: who may move it, how far and how often (`tla-registry/src/lib.rs`, `admin.rs`). */
module Rates {
  import opened Common
  import opened RegistryTypes
  import opened Pricing

  const MIN_RETRACTION_NOTICE_NS: nat := 24 * 60 * 60 * NS_PER_SEC

  function DefaultFees(): FeeConfig {
    FeeConfig(1_000_000_000, 50_000_000, 20_000_000, 10_000_000, 5_000_000, 500_000,
              12 * YOCTO_PER_NEAR / 1000, 1000, 7 * 24 * 60 * 60 * NS_PER_SEC, 2_000, 527,
              100_000, 100_000_000, 300 * NS_PER_SEC, 6 * 60 * 60 * NS_PER_SEC)
  }

  /** What the council may install while `rate` is stored. */
  predicate FeesAllowed(c: FeeConfig, rate: nat) {
    && !(c.rentTier5 == 0 && c.rentTier8 == 0 && c.rentTier10 == 0 && c.rentTier12 == 0)
    && c.creationDeposit != 0
    && c.rentTier5 >= c.rentTier8 >= c.rentTier10 >= c.rentTier12
    && c.maxRateMoveBps <= BPS && c.quoteSlippageBps <= BPS
    && 0 < c.minRate <= c.maxRate <= MAX_NEAR_USD_RATE_MICRO
    && (rate != 0 ==> c.minRate <= rate <= c.maxRate)
    && c.rateCooldown != 0 && c.maxRateAge >= c.rateCooldown
    && c.businessMaxSubs != 0
    && c.retractionNotice >= MIN_RETRACTION_NOTICE_NS
    && c.allocationFee <= MAX_USD_MICRO && c.rentTier5 <= MAX_USD_MICRO && c.subFee <= MAX_USD_MICRO
    && c.rentTier8 <= MAX_USD_MICRO && c.rentTier10 <= MAX_USD_MICRO && c.rentTier12 <= MAX_USD_MICRO
  }

  function Commit(b: RateBook, rate: nat, now: nat): RateBook {
    RateBook(rate, now, SatAdd(b.sequence, 1))
  }

  function SetInitialRate(b: RateBook, c: FeeConfig, rate: nat, now: nat): Option<RateBook> {
    if b.rate != 0 || rate < c.minRate || rate > c.maxRate then None else Some(Commit(b, rate, now))
  }

  function SetRate(b: RateBook, c: FeeConfig, rate: nat, now: nat): Option<RateBook> {
    if b.rate == 0 || now < SatAdd(b.updatedAt, c.rateCooldown) then None
    else if RateWithinBounds(b.rate, rate, c.maxRateMoveBps, c.minRate, c.maxRate) != Some(true) then None
    else Some(Commit(b, rate, now))
  }

  /** The price of `usd` micro-dollars now; none without a fresh rate inside the band. */
  function ConvertUsd(b: RateBook, c: FeeConfig, usd: nat, now: nat): Option<nat> {
    if b.rate == 0 || b.rate < c.minRate || b.rate > c.maxRate then None
    else if SatSub(now, b.updatedAt) > c.maxRateAge || usd > MAX_USD_MICRO then None
    else UsdToYocto(usd, b.rate)
  }

  // ---------------------------------------------------------------- runs

  datatype State = State(book: RateBook, fees: FeeConfig)

  /** Who calls, as the registry's roles stand at that moment. */
  datatype Role = Council | Oracle | Other

  datatype Call =
    | InitialRate(rate: nat)
    | OracleRate(rate: nat)
    | NewFees(fees: FeeConfig)

  datatype Step = Step(role: Role, deposit: nat, now: nat, call: Call)

  function Init(): State {
    State(RateBook(0, 0, 0), DefaultFees())
  }

  function Apply(s: State, t: Step): Option<State> {
    match t.call
    case InitialRate(rate) =>
      if t.deposit != 1 || !t.role.Council? then None
      else
        var b := SetInitialRate(s.book, s.fees, rate, t.now);
        if b.None? then None else Some(s.(book := b.value))
    case OracleRate(rate) =>
      if !t.role.Oracle? then None
      else
        var b := SetRate(s.book, s.fees, rate, t.now);
        if b.None? then None else Some(s.(book := b.value))
    case NewFees(fees) =>
      if t.deposit != 1 || !t.role.Council? || !FeesAllowed(fees, s.book.rate) then None
      else Some(s.(fees := fees))
  }

  function Next(s: State, t: Step): State {
    if Apply(s, t).Some? then Apply(s, t).value else s
  }

  /** A run: states one step apart, at times below the 64-bit limit. */
  ghost predicate Run(ss: seq<State>, steps: seq<Step>) {
    && |ss| == |steps| + 1 && ss[0] == Init()
    && (forall i :: 0 <= i < |steps| ==> ss[i + 1] == Next(ss[i], steps[i]))
    && (forall i :: 0 <= i < |steps| ==> steps[i].now < MAX_U64)
  }

  predicate InBand(s: State) {
    && 0 < s.fees.minRate <= s.fees.maxRate <= MAX_NEAR_USD_RATE_MICRO
    && s.fees.maxRateMoveBps <= BPS
    && (s.book.rate != 0 ==> s.fees.minRate <= s.book.rate <= s.fees.maxRate)
  }

  /** From the deployed configuration on, the stored rate is unset or inside the configured band. */
  lemma {:induction false} RateStaysInBand(ss: seq<State>, steps: seq<Step>, i: nat)
    requires Run(ss, steps) && i <= |steps|
    ensures InBand(ss[i])
  {
    if i > 0 {
      RateStaysInBand(ss, steps, i - 1);
      assert ss[i - 1 + 1] == Next(ss[i - 1], steps[i - 1]);
    }
  }

  /** So the oracle never repairs a stranded rate: every accepted move starts from a usable one. */
  lemma {:induction false} NoRateIsStranded(ss: seq<State>, steps: seq<Step>, i: nat)
    requires Run(ss, steps) && i < |steps|
    requires steps[i].call.OracleRate? && Apply(ss[i], steps[i]).Some?
    ensures RateIsUsable(ss[i].book.rate, ss[i].fees.minRate, ss[i].fees.maxRate)
    ensures RateLowerBound(ss[i].book.rate, ss[i].fees.maxRateMoveBps).Some?
    ensures RateUpperBound(ss[i].book.rate, ss[i].fees.maxRateMoveBps).Some?
  {
    RateStaysInBand(ss, steps, i);
    BoundsFit(ss[i].book.rate, ss[i].fees.maxRateMoveBps);
  }

  lemma BoundsFit(rate: nat, bps: nat)
    requires rate <= MAX_NEAR_USD_RATE_MICRO && bps <= BPS
    ensures RateLowerBound(rate, bps).Some? && RateUpperBound(rate, bps).Some?
  {
    MulMono(rate, MAX_NEAR_USD_RATE_MICRO, BPS - bps);
    MulMono(rate, MAX_NEAR_USD_RATE_MICRO, BPS + bps);
  }

  // ---------------------------------------------------------------- how fast the oracle can move the price

  function Pow(b: nat, n: nat): nat {
    if n == 0 then 1 else b * Pow(b, n - 1)
  }

  /** The number of oracle updates accepted among steps `i` to `j`. */
  ghost function Updates(ss: seq<State>, steps: seq<Step>, i: nat, j: nat): nat
    requires i <= j <= |steps| && |ss| == |steps| + 1
    decreases j
  {
    if i == j then 0
    else
      var before := Updates(ss, steps, i, j - 1);
      if steps[j - 1].call.OracleRate? && Apply(ss[j - 1], steps[j - 1]).Some? then before + 1 else before
  }

  lemma OneMove(s: State, t: Step)
    requires InBand(s) && t.call.OracleRate? && Apply(s, t).Some? && t.now < MAX_U64
    ensures var r, r', m := s.book.rate, Next(s, t).book.rate, s.fees.maxRateMoveBps;
            r * (BPS - m) <= r' * BPS <= r * (BPS + m)
    ensures Next(s, t).book.updatedAt >= s.book.updatedAt + s.fees.rateCooldown
    ensures Next(s, t).fees == s.fees && Next(s, t).book.rate != 0
  {
    var r, m := s.book.rate, s.fees.maxRateMoveBps;
    BoundsFit(r, m);
    DivMod(r * (BPS - m), BPS);
    DivMod(r * (BPS + m), BPS);
  }

  lemma Compound(r0: nat, r: nat, r': nat, f: nat, p: nat, q: nat)
    requires r * p <= r0 * q && r' * BPS <= r * f
    ensures r' * (BPS * p) <= r0 * (f * q)
  {
    calc {
      r' * (BPS * p);
      == (r' * BPS) * p;
      <= { MulMono(r' * BPS, r * f, p); }
      (r * f) * p;
      == (r * p) * f;
      <= { MulMono(r * p, r0 * q, f); }
      (r0 * q) * f;
      == r0 * (f * q);
    }
  }

  lemma CompoundDown(r0: nat, r: nat, r': nat, f: nat, p: nat, q: nat)
    requires r * p >= r0 * q && r' * BPS >= r * f
    ensures r' * (BPS * p) >= r0 * (f * q)
  {
    calc {
      r' * (BPS * p);
      == (r' * BPS) * p;
      >= { MulMono(r * f, r' * BPS, p); }
      (r * f) * p;
      == (r * p) * f;
      >= { MulMono(r0 * q, r * p, f); }
      (r0 * q) * f;
      == r0 * (f * q);
    }
  }

  /**
   While the fee configuration stands, n oracle updates move the price by a factor within
   (1 - m)^n and (1 + m)^n and take at least n cooldowns.
   */
  lemma {:induction false} PriceDrift(ss: seq<State>, steps: seq<Step>, i: nat, j: nat)
    requires Run(ss, steps) && i <= j <= |steps|
    requires ss[i].book.rate != 0
    requires forall k :: i <= k <= j ==> ss[k].fees == ss[i].fees
    ensures ss[i].fees.maxRateMoveBps <= BPS && ss[j].book.rate != 0
    ensures var n, m, r0, r := Updates(ss, steps, i, j), ss[i].fees.maxRateMoveBps, ss[i].book.rate, ss[j].book.rate;
            r0 * Pow(BPS - m, n) <= r * Pow(BPS, n) <= r0 * Pow(BPS + m, n)
    ensures ss[j].book.updatedAt >= ss[i].book.updatedAt + Updates(ss, steps, i, j) * ss[i].fees.rateCooldown
    decreases j
  {
    RateStaysInBand(ss, steps, i);
    if i < j {
      PriceDrift(ss, steps, i, j - 1);
      RateStaysInBand(ss, steps, j - 1);
      var s, t := ss[j - 1], steps[j - 1];
      assert ss[j - 1 + 1] == Next(s, t);
      if t.call.OracleRate? && Apply(s, t).Some? {
        OneMove(s, t);
        Drifted(ss[i].book.rate, s.book.rate, Next(s, t).book.rate, s.fees.maxRateMoveBps, Updates(ss, steps, i, j - 1));
        Cooldowns(Updates(ss, steps, i, j - 1), s.fees.rateCooldown);
      } else {
        Settled(s, t);
      }
    }
  }

  lemma Settled(s: State, t: Step)
    requires s.book.rate != 0 && !(t.call.OracleRate? && Apply(s, t).Some?)
    ensures Next(s, t).book == s.book
  {
  }

  lemma Cooldowns(n: nat, c: nat)
    ensures (n + 1) * c == n * c + c
  {
  }

  lemma Drifted(r0: nat, r: nat, r': nat, m: nat, n: nat)
    requires m <= BPS
    requires r0 * Pow(BPS - m, n) <= r * Pow(BPS, n) <= r0 * Pow(BPS + m, n)
    requires r * (BPS - m) <= r' * BPS <= r * (BPS + m)
    ensures r0 * Pow(BPS - m, n + 1) <= r' * Pow(BPS, n + 1) <= r0 * Pow(BPS + m, n + 1)
  {
    Compound(r0, r, r', BPS + m, Pow(BPS, n), Pow(BPS + m, n));
    CompoundDown(r0, r, r', BPS - m, Pow(BPS, n), Pow(BPS - m, n));
  }
}
