/** What names and top-level accounts cost, and that exactly this is what an accepted payment earns. */
module Rents {
  import opened Common
  import opened RegistryTypes
  import opened NameTable
  import opened Pricing
  import opened RegistryModel
  import opened IndexRuns
  import opened MoneyRuns
  import opened Intents
  import opened RegistryClocks
  import Rates

  // ---------------------------------------------------------------- tiers

  predicate TiersDescend(f: FeeConfig) {
    f.rentTier5 >= f.rentTier8 >= f.rentTier10 >= f.rentTier12
  }

  lemma {:induction false} RateRunsKeepTiers(ss: seq<Rates.State>, steps: seq<Rates.Step>, i: nat)
    requires Rates.Run(ss, steps) && i <= |steps|
    ensures TiersDescend(ss[i].fees)
  {
    if i > 0 {
      RateRunsKeepTiers(ss, steps, i - 1);
      assert ss[i - 1 + 1] == Rates.Next(ss[i - 1], steps[i - 1]);
    }
  }

  /** In every run of the registry shorter names are in no cheaper tier. */
  lemma TiersAlwaysDescend(start: Net, ws: seq<Net>, steps: seq<Step>, i: nat)
    requires Run(start, ws, steps) && Timed(steps) && ClocksReset(start.reg) && i <= |steps|
    ensures TiersDescend(ws[i].reg.cfg.fees)
  {
    RunsProject(start, ws, steps);
    RateRunsKeepTiers(RateStates(ws), RateSteps(ws, steps), i);
  }

  /** The last length of each of the four bands; the last band has none. */
  predicate SameBand(a: nat, b: nat) {
    (a <= 5 <==> b <= 5) && (a <= 8 <==> b <= 8) && (a <= 10 <==> b <= 10)
  }

  predicate OpenTla(s: Registry, tla: AccountId) {
    tla in s.tlas && s.tlas[tla].kind.Open?
  }

  function Rank(p: Premium): nat {
    match p
    case Community => 0
    case Standard => 1
    case Premium => 2
    case Legendary => 3
  }

  lemma Scaled(a: nat, b: nat, n: nat, d: nat)
    requires a <= b && d > 0
    ensures a * n / d <= b * n / d
  {
    MulMono(a, b, n);
    DivMono(a * n, b * n, d);
  }

  lemma DivMono(a: nat, b: nat, d: nat)
    requires a <= b && d > 0
    ensures a / d <= b / d
  {
    DivMod(a, d);
    DivMod(b, d);
    if a / d > b / d {
      Pricing.Step(d, b / d, a / d);
    }
  }

  /** Under one open account a longer name never costs more. */
  lemma LongerNamesCostNoMore(s: Registry, tla: AccountId, a: string, b: string)
    requires OpenTla(s, tla) && TiersDescend(s.cfg.fees) && |a| <= |b|
    ensures NameRent(s, tla, b) <= NameRent(s, tla, a)
  {
    var m := Multiplier(s.tlas[tla].premium);
    Scaled(BaseRent(|b|, s.cfg.fees), BaseRent(|a|, s.cfg.fees), m.0, m.1);
  }

  /** Names of one band cost the same, so the price only changes past 5, 8 and 10 letters. */
  lemma PricesChangeBetweenBands(s: Registry, tla: AccountId, a: string, b: string)
    requires OpenTla(s, tla) && (SameBand(|a|, |b|) || (|b| == |a| + 1 && |a| != 5 && |a| != 8 && |a| != 10))
    ensures NameRent(s, tla, a) == NameRent(s, tla, b)
  {
  }

  /** A top-level account without terms of its own never costs more than a shorter one. */
  lemma LongerTlasCostNoMore(s: Registry, a: AccountId, b: AccountId)
    requires TiersDescend(s.cfg.fees) && |a| <= |b| && TermsFor(s, a).tlaRent.None? && TermsFor(s, b).tlaRent.None?
    ensures TlaRent(s, b) <= TlaRent(s, a)
    ensures SameBand(|a|, |b|) ==> TlaRent(s, b) == TlaRent(s, a)
  {
  }

  /** The dearer the class of an open account, the dearer its names. */
  lemma DearerClassesCostNoLess(s: Registry, a: AccountId, b: AccountId, name: string)
    requires OpenTla(s, a) && OpenTla(s, b) && Rank(s.tlas[a].premium) <= Rank(s.tlas[b].premium)
    ensures NameRent(s, a, name) <= NameRent(s, b, name)
  {
    var base := BaseRent(|name|, s.cfg.fees);
    HalfAgain(base);
  }

  lemma HalfAgain(base: nat)
    ensures base * 0 / 1 <= base * 3 / 2 <= base * 3 / 1 <= base * 5 / 1
  {
  }

  /** What the four bands and classes of an open account cost, and a business account by its terms. */
  lemma PriceList(s: Registry, tla: AccountId, name: string)
    requires tla in s.tlas
    ensures var t, f := s.tlas[tla], s.cfg.fees;
            var tier := if |name| <= 5 then f.rentTier5 else if |name| <= 8 then f.rentTier8 else if |name| <= 10 then f.rentTier10 else f.rentTier12;
            && (t.kind.Open? && t.premium.Legendary? ==> NameRent(s, tla, name) == 5 * tier)
            && (t.kind.Open? && t.premium.Premium? ==> NameRent(s, tla, name) == 3 * tier)
            && (t.kind.Open? && t.premium.Standard? ==> 2 * NameRent(s, tla, name) <= 3 * tier < 2 * NameRent(s, tla, name) + 2)
            && (t.kind.Open? && t.premium.Community? ==> NameRent(s, tla, name) == 0)
            && (t.kind.Business? && TermsFor(s, tla).subFee.Some? ==> NameRent(s, tla, name) == TermsFor(s, tla).subFee.value)
            && (t.kind.Business? && TermsFor(s, tla).subFee.None? ==> NameRent(s, tla, name) == f.subFee)
  {
  }

  /** At the deployed fees a five-letter name under a standard account costs 75 dollars a term, a twelve-letter one 7.50. */
  lemma DeployedPrices(s: Registry, tla: AccountId, short: string, long: string)
    requires OpenTla(s, tla) && s.tlas[tla].premium.Standard? && s.cfg.fees == Rates.DefaultFees() && |short| == 5 && |long| == 12
    ensures NameRent(s, tla, short) == 75_000_000 && NameRent(s, tla, long) == 7_500_000
  {
  }

  // ---------------------------------------------------------------- what a payment earns

  /** `usd` micro-dollars at the stored rate, rounded down. */
  function Converted(s: Registry, usd: nat): nat
    requires s.rate.rate != 0
  {
    usd * YOCTO_PER_NEAR / s.rate.rate
  }

  lemma PriceIsConverted(s: Registry, usd: nat, now: nat)
    requires Price(s, usd, now).Some?
    ensures s.rate.rate != 0 && usd <= MAX_USD_MICRO && Price(s, usd, now).value == Converted(s, usd)
    ensures s.cfg.fees.minRate <= s.rate.rate <= s.cfg.fees.maxRate && SatSub(now, s.rate.updatedAt) <= s.cfg.fees.maxRateAge
  {
    ConversionNeverOverflows(usd, s.rate.rate);
  }

  /** The chain a call started, with or without the balance gate before it. */
  predicate ChainOf(f0: Flight, f: Flight) {
    Decisive(f) && (f == f0 || Becomes(f0, f))
  }

  lemma RentStarts(s: Registry, x: Ctx, call: Call)
    requires call.Rent? && Apply(s, x, call).Some?
    ensures call.tla in s.tlas && Price(s, NameRent(s, call.tla, call.name), x.now).Some?
    ensures var f := Apply(s, x, call).value.flight;
            && f.Some? && Minting(f.value) && f.value.m.payer == x.caller && f.value.m.attached == x.deposit
            && f.value.m.rent == Price(s, NameRent(s, call.tla, call.name), x.now).value
    ensures Apply(s, x, call).value.state.money == s.money
  {
  }

  lemma MintEarns(s: Registry, now: nat, f: Flight)
    requires (f.MintFlight? || f.ReRentFlight?) && Settle(s, now, f, Succeeded).Some?
    ensures Settle(s, now, f, Succeeded).value.state.money.revenue == s.money.revenue + f.m.rent
  {
    SettleBooks(s, now, f, Succeeded);
  }

  /** A rent that succeeds earns exactly the converted price of the name, whenever it settles; one that fails earns nothing. */
  lemma RentsEarnTheirPrice(s: Registry, x: Ctx, call: Call, f: Flight, s2: Registry, now: nat, outcome: Outcome)
    requires call.Rent? && Apply(s, x, call).Some? && Apply(s, x, call).value.flight.Some?
    requires ChainOf(Apply(s, x, call).value.flight.value, f) && Settle(s2, now, f, outcome).Some?
    ensures s.rate.rate != 0 && call.tla in s.tlas && x.deposit >= Converted(s, NameRent(s, call.tla, call.name))
    ensures Settle(s2, now, f, outcome).value.state.money.revenue
            == s2.money.revenue + if outcome.Succeeded? then Converted(s, NameRent(s, call.tla, call.name)) else 0
  {
    RentStarts(s, x, call);
    PriceIsConverted(s, NameRent(s, call.tla, call.name), x.now);
    var s1, kind, m, payout, reRent := MintCall(s, x, call);
    if outcome.Succeeded? {
      MintEarns(s2, now, f);
    } else {
      SettleBooks(s2, now, f, outcome);
    }
  }

  /** A renewal earns exactly the converted price of the name when it succeeds, and refunds it when it fails. */
  lemma RenewalsEarnTheirPrice(s: Registry, x: Ctx, call: Call, s2: Registry, now: nat, outcome: Outcome)
    requires call.RenewSub? && Apply(s, x, call).Some?
    ensures s.rate.rate != 0 && call.tla in s.tlas && x.deposit >= Converted(s, NameRent(s, call.tla, call.name))
    ensures Apply(s, x, call).value.flight.Some?
    ensures var f, price := Apply(s, x, call).value.flight.value, Converted(s, NameRent(s, call.tla, call.name));
            && Settle(s2, now, f, outcome).Some?
            && var m, m' := s2.money, Settle(s2, now, f, outcome).value.state.money;
               if outcome.Succeeded? && KeyOf(call.tla, call.name) in s2.names.subs
               then m'.revenue == m.revenue + price && m'.totalRefunds == m.totalRefunds
               else m'.revenue == m.revenue && m'.totalRefunds == m.totalRefunds + price
  {
    PriceIsConverted(s, NameRent(s, call.tla, call.name), x.now);
    RenewStarts(s, x, call);
    SettleBooks(s2, now, Apply(s, x, call).value.flight.value, outcome);
  }

  lemma RenewStarts(s: Registry, x: Ctx, call: Call)
    requires call.RenewSub? && Apply(s, x, call).Some?
    ensures call.tla in s.tlas && Price(s, NameRent(s, call.tla, call.name), x.now).Some?
    ensures x.deposit >= Price(s, NameRent(s, call.tla, call.name), x.now).value
    ensures var f := Apply(s, x, call).value.flight;
            f.Some? && f.value.RenewFlight? && f.value.tla == call.tla && f.value.name == call.name && f.value.payer == x.caller
            && f.value.rent == Price(s, NameRent(s, call.tla, call.name), x.now).value
  {
  }

  /** Activating a business account earns its allocation fee and first rent, renewing an account its rent; both run a year. */
  lemma TlasEarnTheirPrice(s: Registry, x: Ctx, call: Call)
    requires (call.ActivateTla? || call.RenewTla?) && Apply(s, x, call).Some?
    ensures s.rate.rate != 0 && call.tla in s.tlas && call.tla in Apply(s, x, call).value.state.tlas
    ensures var s', usd := Apply(s, x, call).value.state, (if call.ActivateTla? then AllocationFee(s, call.tla) else 0) + TlaRent(s, call.tla);
            && s'.money.revenue == s.money.revenue + Converted(s, usd)
            && s'.money.totalRefunds == s.money.totalRefunds + x.deposit - Converted(s, usd)
            && s'.tlas[call.tla].expiresAt
               == SatAdd(if call.ActivateTla? then x.now else Max(x.now, s.tlas[call.tla].expiresAt), ONE_YEAR_NS)
  {
    PriceIsConverted(s, (if call.ActivateTla? then AllocationFee(s, call.tla) else 0) + TlaRent(s, call.tla), x.now);
  }
}
