/** Money in every run: refunds add up, and no yocto taken in is lost or counted twice. */
module MoneyRuns {
  import opened Common
  import opened RegistryTypes
  import opened NameTable
  import opened RegistryModel
  import opened IndexRuns

  // ---------------------------------------------------------------- refunds

  ghost function Sum(m: map<AccountId, nat>): nat
    decreases |m|
  {
    if m == map[] then 0
    else
      var k := Pick(m.Keys);
      m[k] + Sum(m - {k})
  }

  lemma {:induction false} SumWithout(m: map<AccountId, nat>, k: AccountId)
    requires k in m
    ensures Sum(m) == m[k] + Sum(m - {k})
    decreases |m|
  {
    var p := Pick(m.Keys);
    if p != k {
      SumWithout(m - {p}, k);
      SumWithout(m - {k}, p);
      assert m - {p} - {k} == m - {k} - {p};
    }
  }

  lemma SumUpdate(m: map<AccountId, nat>, k: AccountId, v: nat)
    ensures Sum(m[k := v]) + (if k in m then m[k] else 0) == Sum(m) + v
  {
    SumWithout(m[k := v], k);
    if k in m {
      SumWithout(m, k);
      assert m[k := v] - {k} == m - {k};
    } else {
      assert m[k := v] - {k} == m;
    }
  }

  ghost predicate RefundsAddUp(m: Money) {
    m.totalRefunds == Sum(m.refunds)
  }

  lemma AddRefundAddsUp(m: Money, account: AccountId, amount: nat)
    requires RefundsAddUp(m)
    ensures RefundsAddUp(AddRefund(m, account, amount))
  {
    SumUpdate(m.refunds, account, (if account in m.refunds then m.refunds[account] else 0) + amount);
  }

  /** The only ways a step changes the books. */
  datatype Entry =
    | Unchanged
    | Credit(earned: nat, account: AccountId, credited: nat)
    | Earned(earned: nat)
    | Drawn(amount: nat, account: AccountId)
    | Claimed(account: AccountId)

  function Booked(m: Money, e: Entry): Money {
    match e
    case Unchanged => m
    case Credit(earned, account, credited) => AddRefund(Earn(m, earned), account, credited)
    case Earned(earned) => Earn(m, earned)
    case Drawn(amount, account) => AddRefund(m.(revenue := SatSub(m.revenue, amount)), account, amount)
    case Claimed(account) =>
      if account in m.refunds then
        m.(refunds := m.refunds - {account}, totalRefunds := SatSub(m.totalRefunds, m.refunds[account]))
      else m
  }

  lemma BookedAddsUp(m: Money, e: Entry)
    requires RefundsAddUp(m)
    ensures RefundsAddUp(Booked(m, e))
  {
    match e
    case Unchanged =>
    case Credit(earned, account, credited) => AddRefundAddsUp(Earn(m, earned), account, credited);
    case Earned(_) =>
    case Drawn(amount, account) => AddRefundAddsUp(m.(revenue := SatSub(m.revenue, amount)), account, amount);
    case Claimed(account) =>
      if account in m.refunds {
        SumWithout(m.refunds, account);
      }
  }

  function Excess(earned: nat, payer: AccountId, attached: nat, charged: nat): Entry {
    if attached > charged then Credit(earned, payer, attached - charged) else Earned(earned)
  }

  /** The entry a call makes. */
  function CallEntry(s: Registry, x: Ctx, call: Call): Entry {
    match call
    case ActivateTla(tla) =>
      var fee := Price(s, AllocationFee(s, tla) + TlaRent(s, tla), x.now);
      if fee.None? then Unchanged else Excess(fee.value, x.caller, x.deposit, fee.value)
    case RenewTla(tla) =>
      var rent := Price(s, TlaRent(s, tla), x.now);
      if rent.None? then Unchanged else Excess(rent.value, x.caller, x.deposit, rent.value)
    case RenewSub(tla, name) =>
      if tla !in s.tlas || Price(s, NameRent(s, tla, name), x.now).None? then Unchanged
      else Excess(0, x.caller, x.deposit, Price(s, NameRent(s, tla, name), x.now).value)
    case ClaimRefund => Claimed(x.caller)
    case Withdraw(amount) => Drawn(amount, s.cfg.treasury)
    case _ => Unchanged
  }

  lemma CallBooks(s: Registry, x: Ctx, call: Call)
    requires Apply(s, x, call).Some?
    ensures Apply(s, x, call).value.state.money == Booked(s.money, CallEntry(s, x, call))
  {
    if Asks(call) {
      AskBooks(s, x, call);
    }
  }

  lemma AskBooks(s: Registry, x: Ctx, call: Call)
    requires Apply(s, x, call).Some? && Asks(call)
    ensures Apply(s, x, call).value.state.money == Booked(s.money, CallEntry(s, x, call))
  {
  }

  /** The entry a settled chain makes. */
  function SettleEntry(s: Registry, f: Flight, outcome: Outcome): Entry {
    match f
    case MintFlight(_, m, _, _, _) =>
      if outcome.Succeeded? then Excess(m.rent, m.payer, m.attached, m.rent + s.cfg.fees.creationDeposit)
      else if KeyOf(m.tla, m.name) in s.names.subs then Credit(0, m.payer, m.attached)
      else Unchanged
    case ReRentGate(m, _, _) =>
      if outcome.Succeeded? || KeyOf(m.tla, m.name) !in s.names.subs then Unchanged else Credit(0, m.payer, m.attached)
    case ReRentFlight(m, _, _) =>
      if outcome.Succeeded? then Excess(m.rent, m.payer, m.attached, m.rent)
      else if KeyOf(m.tla, m.name) in s.names.subs then Credit(0, m.payer, m.attached)
      else Unchanged
    case RenewFlight(tla, name, _, payer, rent) =>
      if outcome.Succeeded? && KeyOf(tla, name) in s.names.subs then Earned(rent) else Credit(0, payer, rent)
    case RefundFlight(account, amount) => if outcome.Succeeded? then Unchanged else Credit(0, account, amount)
    case _ => Unchanged
  }

  lemma SettleBooks(s: Registry, now: nat, f: Flight, outcome: Outcome)
    requires Settle(s, now, f, outcome).Some?
    ensures Settle(s, now, f, outcome).value.state.money == Booked(s.money, SettleEntry(s, f, outcome))
  {
  }

  lemma {:induction false} RefundsAlwaysAddUp(start: Net, ws: seq<Net>, steps: seq<Step>, i: nat)
    requires Run(start, ws, steps) && i <= |steps| && Deployed(start.reg)
    ensures ws[i].reg.money.totalRefunds == Sum(ws[i].reg.money.refunds)
  {
    if i > 0 {
      RefundsAlwaysAddUp(start, ws, steps, i - 1);
      var w, t := ws[i - 1], steps[i - 1];
      assert ws[i - 1 + 1] == Next(w, t);
      match t
      case Request(x, call) =>
        if Apply(w.reg, x, call).Some? {
          CallBooks(w.reg, x, call);
          BookedAddsUp(w.reg.money, CallEntry(w.reg, x, call));
        }
      case Deliver(now, k, outcome) =>
        if k < |w.flights| && Settle(w.reg, now, w.flights[k], outcome).Some? {
          SettleBooks(w.reg, now, w.flights[k], outcome);
          BookedAddsUp(w.reg.money, SettleEntry(w.reg, w.flights[k], outcome));
        }
    }
  }

  /** A withdrawal moves revenue into the treasury's refund and nothing else. */
  lemma WithdrawalsMoveMoney(s: Registry, x: Ctx, amount: nat)
    requires Apply(s, x, Withdraw(amount)).Some?
    ensures var s' := Apply(s, x, Withdraw(amount)).value.state;
            && s'.money.revenue + s'.money.totalRefunds == s.money.revenue + s.money.totalRefunds
            && s'.money.revenue == s.money.revenue - amount
            && s' == s.(money := s'.money)
  {
  }

  // ---------------------------------------------------------------- money in flight

  predicate Minting(f: Flight) {
    f.MintFlight? || f.ReRentGate? || f.ReRentFlight?
  }

  function MintKey(f: Flight): Key
    requires Minting(f)
  {
    KeyOf(f.m.tla, f.m.name)
  }

  /** What a chain in flight still owes an account of. */
  function HeldBy(f: Flight): nat {
    if Minting(f) then f.m.attached
    else if f.RenewFlight? then f.rent
    else if f.RefundFlight? then f.amount
    else 0
  }

  function Held(fs: seq<Flight>): nat {
    if fs == [] then 0 else Held(fs[..|fs| - 1]) + HeldBy(fs[|fs| - 1])
  }

  lemma {:induction false} HeldWithout(fs: seq<Flight>, i: nat)
    requires i < |fs|
    ensures Held(fs) == Held(Without(fs, i)) + HeldBy(fs[i])
  {
    var last := |fs| - 1;
    if i == last {
      assert Without(fs, i) == fs[..last];
    } else {
      HeldWithout(fs[..last], i);
      assert Without(fs, i)[..last - 1] == Without(fs[..last], i);
    }
  }

  lemma HeldLaunch(fs: seq<Flight>, f: Option<Flight>)
    ensures Held(Launch(fs, f)) == Held(fs) + if f.Some? then HeldBy(f.value) else 0
  {
    if f.Some? {
      assert (fs + [f.value])[..|fs|] == fs;
    }
  }

  predicate Pays(call: Call) {
    call.Rent? || call.RentPaid? || call.ClaimName? || call.RenewSub? || call.ActivateTla? || call.RenewTla?
  }

  /** Deposits taken by accepted payments. */
  function TakenIn(w: Net, t: Step): nat {
    if t.Request? && Pays(t.call) && Apply(w.reg, t.x, t.call).Some? then t.x.deposit else 0
  }

  /** Creation deposits that ended up in a new account. */
  function SentOn(w: Net, t: Step): nat {
    if t.Deliver? && t.which < |w.flights| && w.flights[t.which].MintFlight? && t.outcome.Succeeded? then w.flights[t.which].forwarded
    else 0
  }

  function PaidOut(w: Net, t: Step): nat {
    if t.Deliver? && t.which < |w.flights| && w.flights[t.which].RefundFlight? && t.outcome.Succeeded? then w.flights[t.which].amount
    else 0
  }

  function OnBooks(m: Money): nat {
    m.revenue + m.totalRefunds
  }

  // ---------------------------------------------------------------- exactly when one settlement balances

  /** A successful mint books the whole deposit exactly if the creation deposit still is what was forwarded, or it rose and nothing was left over. */
  lemma SuccessBalancesIff(s: Registry, now: nat, f: Flight)
    requires f.MintFlight? && f.m.attached >= f.m.rent + f.forwarded && Settle(s, now, f, Succeeded).Some?
    ensures var s' := Settle(s, now, f, Succeeded).value.state;
            OnBooks(s'.money) - OnBooks(s.money) + f.forwarded == f.m.attached
            <==> (s.cfg.fees.creationDeposit == f.forwarded
                  || (f.m.attached == f.m.rent + f.forwarded && s.cfg.fees.creationDeposit > f.forwarded))
  {
    SettleBooks(s, now, f, Succeeded);
  }

  /** A failed mint or re-rent books the whole deposit exactly if the provisional entry is still there. */
  lemma FailureBalancesIff(s: Registry, now: nat, f: Flight, outcome: Outcome)
    requires Minting(f) && f.m.attached > 0 && !outcome.Succeeded?
    ensures Settle(s, now, f, outcome).Some?
    ensures var s' := Settle(s, now, f, outcome).value.state;
            OnBooks(s'.money) - OnBooks(s.money) == f.m.attached <==> MintKey(f) in s.names.subs
  {
    SettleBooks(s, now, f, outcome);
  }

  // ---------------------------------------------------------------- the balance sheet of a run

  /** Every name being minted has its provisional entry, and only one chain minting it. */
  ghost predicate Provisional(w: Net, deposit: nat) {
    && (forall i :: 0 <= i < |w.flights| ==> Placed(w.reg.names.subs, w.flights[i], deposit))
    && MintsApart(w.flights)
  }

  predicate Placed(subs: map<Key, Sub>, f: Flight, deposit: nat) {
    Minting(f) ==> Funded(f, deposit) && MintKey(f) in subs
  }

  predicate SameMint(f: Flight, g: Flight) {
    Minting(f) && Minting(g) && MintKey(f) == MintKey(g)
  }

  ghost predicate MintsApart(fs: seq<Flight>) {
    forall i, j :: 0 <= i < j < |fs| ==> !SameMint(fs[i], fs[j])
  }

  predicate Funded(f: Flight, deposit: nat)
    requires Minting(f)
  {
    if f.MintFlight? then f.forwarded == deposit && f.m.attached >= f.m.rent + deposit else f.m.attached >= f.m.rent
  }

  predicate MintsName(f: Flight, key: Key) {
    Minting(f) && MintKey(f) == key
  }

  /** The step does not reclaim a name whose mint or re-rent is in flight. */
  predicate Considerate(w: Net, t: Step) {
    t.Deliver? && t.which < |w.flights| && w.flights[t.which].ReclaimFlight? && t.outcome.Succeeded?
    ==> forall i :: 0 <= i < |w.flights| ==> !MintsName(w.flights[i], KeyOf(w.flights[t.which].tla, w.flights[t.which].name))
  }

  lemma CallKeepsEntries(s: Registry, x: Ctx, call: Call)
    requires Apply(s, x, call).Some?
    ensures forall k :: k in s.names.subs ==> k in Apply(s, x, call).value.state.names.subs
    ensures var f := Apply(s, x, call).value.flight;
            f.Some? && Minting(f.value) ==>
              MintKey(f.value) !in s.names.subs && MintKey(f.value) in Apply(s, x, call).value.state.names.subs
              && Funded(f.value, s.cfg.fees.creationDeposit)
  {
    if call.Rent? || call.RentPaid? || call.ClaimName? {
      MintCallKeepsEntries(s, x, call);
    } else {
      OnlyMintsMint(s, x, call);
      if call.Retract? || call.Reclaim? {
        NoticeEffect(s, x, call);
      } else {
        QuietCalls(s, x, call);
      }
    }
  }

  lemma MintCallKeepsEntries(s: Registry, x: Ctx, call: Call)
    requires Apply(s, x, call).Some? && (call.Rent? || call.RentPaid? || call.ClaimName?)
    ensures forall k :: k in s.names.subs ==> k in Apply(s, x, call).value.state.names.subs
    ensures var f := Apply(s, x, call).value.flight;
            && f.Some? && Minting(f.value) && MintKey(f.value) !in s.names.subs
            && MintKey(f.value) in Apply(s, x, call).value.state.names.subs
            && Funded(f.value, s.cfg.fees.creationDeposit)
  {
    var s1, kind, m, payout, reRent := MintCall(s, x, call);
  }

  lemma OnlyMintsMint(s: Registry, x: Ctx, call: Call)
    requires Apply(s, x, call).Some? && !(call.Rent? || call.RentPaid? || call.ClaimName?)
    ensures Apply(s, x, call).value.flight.Some? ==> !Minting(Apply(s, x, call).value.flight.value)
  {
  }

  lemma SettleKeepsEntry(s: Registry, now: nat, f: Flight, outcome: Outcome, k: Key)
    requires Settle(s, now, f, outcome).Some? && k in s.names.subs
    requires !(Minting(f) && k == MintKey(f)) && !(f.ReclaimFlight? && outcome.Succeeded? && k == KeyOf(f.tla, f.name))
    ensures k in Settle(s, now, f, outcome).value.state.names.subs
  {
    if f.RefundFlight? {
      QuietSettles(s, now, f, outcome);
    } else if k != KeyOf(FlightTla(f), FlightName(f)) {
      SettleFrame(s, now, f, outcome);
    } else if f.MoveFlight? || f.ReturnFlight? || f.RecoverFlight? {
      MoveEffect(s, now, f, outcome);
    } else if f.ReclaimFlight? {
      ReclaimNames(s, now, f, outcome);
    } else if f.RenewFlight? || f.PayoutFlight? || f.RetractFlight? || f.RestoreFlight? {
      AmendNames(s, now, f, outcome);
    } else {
      QuietSettles(s, now, f, outcome);
    }
  }

  lemma SettleLaunchesMint(s: Registry, now: nat, f: Flight, outcome: Outcome)
    requires Settle(s, now, f, outcome).Some?
    ensures var g := Settle(s, now, f, outcome).value.flight;
            g.Some? && Minting(g.value) ==>
              f.ReRentGate? && g.value == ReRentFlight(f.m, f.payout, f.expiresAt) && Settle(s, now, f, outcome).value.state == s
  {
  }

  lemma PlacedStays(s: Registry, s': Registry, f: Flight, deposit: nat)
    requires Placed(s.names.subs, f, deposit) && forall k :: k in s.names.subs ==> k in s'.names.subs
    ensures Placed(s'.names.subs, f, deposit)
  {
  }

  lemma LaunchStaysApart(fs: seq<Flight>, f: Flight)
    requires MintsApart(fs) && forall i :: 0 <= i < |fs| ==> !SameMint(fs[i], f)
    ensures MintsApart(fs + [f])
  {
  }

  lemma RequestStaysProvisional(w: Net, x: Ctx, call: Call, deposit: nat)
    requires Provisional(w, deposit) && w.reg.cfg.fees.creationDeposit == deposit && Apply(w.reg, x, call).Some?
    ensures Provisional(Next(w, Request(x, call)), deposit)
  {
    CallKeepsEntries(w.reg, x, call);
    var done := Apply(w.reg, x, call).value;
    forall i | 0 <= i < |w.flights|
      ensures Placed(done.state.names.subs, w.flights[i], deposit)
      ensures done.flight.Some? ==> !SameMint(w.flights[i], done.flight.value)
    {
      PlacedStays(w.reg, done.state, w.flights[i], deposit);
    }
    if done.flight.Some? {
      LaunchStaysApart(w.flights, done.flight.value);
    }
  }

  lemma RestApart(fs: seq<Flight>, k: nat)
    requires MintsApart(fs) && k < |fs|
    ensures MintsApart(Without(fs, k))
    ensures forall i :: 0 <= i < |Without(fs, k)| ==> !SameMint(Without(fs, k)[i], fs[k])
  {
    var rest := Without(fs, k);
    assert forall i :: 0 <= i < |rest| ==> rest[i] == fs[if i < k then i else i + 1];
  }

  /** What the settled chain leaves of another chain's provisional entry. */
  lemma OtherStaysPlaced(s: Registry, now: nat, f: Flight, outcome: Outcome, g: Flight, deposit: nat)
    requires Settle(s, now, f, outcome).Some? && Placed(s.names.subs, g, deposit) && !SameMint(g, f)
    requires f.ReclaimFlight? && outcome.Succeeded? ==> !MintsName(g, KeyOf(f.tla, f.name))
    ensures Placed(Settle(s, now, f, outcome).value.state.names.subs, g, deposit)
  {
    if Minting(g) {
      SettleKeepsEntry(s, now, f, outcome, MintKey(g));
    }
  }

  lemma RestStaysPlaced(w: Net, now: nat, k: nat, outcome: Outcome, deposit: nat)
    requires Provisional(w, deposit) && k < |w.flights| && Considerate(w, Deliver(now, k, outcome))
    requires Settle(w.reg, now, w.flights[k], outcome).Some?
    ensures forall i :: 0 <= i < |Without(w.flights, k)|
              ==> Placed(Settle(w.reg, now, w.flights[k], outcome).value.state.names.subs, Without(w.flights, k)[i], deposit)
  {
    var rest := Without(w.flights, k);
    RestApart(w.flights, k);
    forall i | 0 <= i < |rest|
      ensures Placed(Settle(w.reg, now, w.flights[k], outcome).value.state.names.subs, rest[i], deposit)
    {
      assert rest[i] == w.flights[if i < k then i else i + 1];
      OtherStaysPlaced(w.reg, now, w.flights[k], outcome, rest[i], deposit);
    }
  }

  lemma DeliverStaysProvisional(w: Net, now: nat, k: nat, outcome: Outcome, deposit: nat)
    requires Provisional(w, deposit) && k < |w.flights| && Considerate(w, Deliver(now, k, outcome))
    requires Settle(w.reg, now, w.flights[k], outcome).Some?
    ensures Provisional(Next(w, Deliver(now, k, outcome)), deposit)
  {
    var done := Settle(w.reg, now, w.flights[k], outcome).value;
    RestApart(w.flights, k);
    RestStaysPlaced(w, now, k, outcome, deposit);
    SettleLaunchesMint(w.reg, now, w.flights[k], outcome);
    if done.flight.Some? {
      LaunchStaysApart(Without(w.flights, k), done.flight.value);
    }
  }

  lemma StepStaysProvisional(w: Net, t: Step, deposit: nat)
    requires Provisional(w, deposit) && w.reg.cfg.fees.creationDeposit == deposit && Considerate(w, t)
    ensures Provisional(Next(w, t), deposit)
  {
    match t
    case Request(x, call) =>
      if Apply(w.reg, x, call).Some? {
        RequestStaysProvisional(w, x, call, deposit);
      }
    case Deliver(now, k, outcome) =>
      if k < |w.flights| {
        if Settle(w.reg, now, w.flights[k], outcome).Some? {
          DeliverStaysProvisional(w, now, k, outcome, deposit);
        } else {
          RestApart(w.flights, k);
        }
      }
  }

  /** What a call launches carries the whole deposit of a mint, the rent of a renewal or a refund claimed. */
  lemma CallLaunches(s: Registry, x: Ctx, call: Call)
    requires Apply(s, x, call).Some?
    ensures var g := Apply(s, x, call).value.flight;
            (if g.Some? then HeldBy(g.value) else 0)
            == if call.Rent? || call.RentPaid? || call.ClaimName? then x.deposit
               else if call.RenewSub? && call.tla in s.tlas && Price(s, NameRent(s, call.tla, call.name), x.now).Some?
               then Price(s, NameRent(s, call.tla, call.name), x.now).value
               else if call.ClaimRefund? && x.caller in s.money.refunds then s.money.refunds[x.caller]
               else 0
  {
    if Asks(call) {
      AskLaunches(s, x, call);
    } else if !call.ClaimRefund? && !(call.Rent? || call.RentPaid? || call.ClaimName?) {
      LaunchesNothing(s, x, call);
    }
  }

  lemma AskLaunches(s: Registry, x: Ctx, call: Call)
    requires Apply(s, x, call).Some? && Asks(call)
    ensures Apply(s, x, call).value.flight.Some?
    ensures HeldBy(Apply(s, x, call).value.flight.value)
            == if call.RenewSub? && call.tla in s.tlas && Price(s, NameRent(s, call.tla, call.name), x.now).Some?
               then Price(s, NameRent(s, call.tla, call.name), x.now).value else 0
  {
  }

  lemma LaunchesNothing(s: Registry, x: Ctx, call: Call)
    requires Apply(s, x, call).Some? && !Asks(call) && !call.ClaimRefund? && !(call.Rent? || call.RentPaid? || call.ClaimName?)
    ensures Apply(s, x, call).value.flight.Some? ==> HeldBy(Apply(s, x, call).value.flight.value) == 0
  {
  }

  lemma CallBalances(s: Registry, x: Ctx, call: Call)
    requires Apply(s, x, call).Some? && RefundsAddUp(s.money)
    ensures var done := Apply(s, x, call).value;
            (if Pays(call) then x.deposit else 0) + OnBooks(s.money)
            == OnBooks(done.state.money) + if done.flight.Some? then HeldBy(done.flight.value) else 0
  {
    CallBooks(s, x, call);
    CallLaunches(s, x, call);
    if call.ClaimRefund? {
      SumWithout(s.money.refunds, x.caller);
    }
    EntryBalances(s, x, call);
  }

  lemma EntryBalances(s: Registry, x: Ctx, call: Call)
    requires Apply(s, x, call).Some?
    requires call.ClaimRefund? && x.caller in s.money.refunds ==> s.money.refunds[x.caller] <= s.money.totalRefunds
    ensures OnBooks(Booked(s.money, CallEntry(s, x, call))) - OnBooks(s.money)
            == (if call.RenewSub? || call.ActivateTla? || call.RenewTla? then x.deposit else 0)
               - (if call.RenewSub? then Price(s, NameRent(s, call.tla, call.name), x.now).value else 0)
               - (if call.ClaimRefund? && x.caller in s.money.refunds then s.money.refunds[x.caller] else 0)
  {
  }

  lemma SettleBalances(w: Net, now: nat, k: nat, outcome: Outcome, deposit: nat)
    requires Provisional(w, deposit) && w.reg.cfg.fees.creationDeposit == deposit && k < |w.flights|
    ensures var done, t := Settle(w.reg, now, w.flights[k], outcome), Deliver(now, k, outcome);
            if done.None? then HeldBy(w.flights[k]) == 0 && SentOn(w, t) == 0 && PaidOut(w, t) == 0
            else HeldBy(w.flights[k]) + OnBooks(w.reg.money)
                 == OnBooks(done.value.state.money) + SentOn(w, t) + PaidOut(w, t)
                    + if done.value.flight.Some? then HeldBy(done.value.flight.value) else 0
  {
    var f := w.flights[k];
    if Settle(w.reg, now, f, outcome).Some? {
      SettleBooks(w.reg, now, f, outcome);
      SettleLaunches(w.reg, now, f, outcome);
    }
  }

  lemma SettleLaunches(s: Registry, now: nat, f: Flight, outcome: Outcome)
    requires Settle(s, now, f, outcome).Some?
    ensures var g := Settle(s, now, f, outcome).value.flight;
            (if g.Some? then HeldBy(g.value) else 0) == if f.ReRentGate? && outcome.Succeeded? then f.m.attached else 0
  {
  }

  lemma StepBalances(w: Net, t: Step, deposit: nat)
    requires Provisional(w, deposit) && w.reg.cfg.fees.creationDeposit == deposit && RefundsAddUp(w.reg.money)
    ensures TakenIn(w, t) + OnBooks(w.reg.money) + Held(w.flights)
            == OnBooks(Next(w, t).reg.money) + Held(Next(w, t).flights) + SentOn(w, t) + PaidOut(w, t)
  {
    match t
    case Request(x, call) =>
      var done := Apply(w.reg, x, call);
      if done.Some? {
        CallBalances(w.reg, x, call);
        HeldLaunch(w.flights, done.value.flight);
      }
    case Deliver(now, k, outcome) =>
      if k < |w.flights| {
        SettleBalances(w, now, k, outcome, deposit);
        HeldWithout(w.flights, k);
        var done := Settle(w.reg, now, w.flights[k], outcome);
        if done.Some? {
          HeldLaunch(Without(w.flights, k), done.value.flight);
        }
      }
  }

  /** A total over the first `i` steps. */
  ghost function Over(amount: (Net, Step) -> nat, ws: seq<Net>, steps: seq<Step>, i: nat): nat
    requires i <= |steps| && |ws| == |steps| + 1
  {
    if i == 0 then 0 else Over(amount, ws, steps, i - 1) + amount(ws[i - 1], steps[i - 1])
  }

  /**
   Conservation: as long as the creation deposit stands and no name is reclaimed while it is being
   minted, everything paid in is revenue, refund credit, held by a chain in flight, forwarded to
   a new account, or paid out.
   */
  lemma {:induction false} MoneyIsConserved(start: Net, ws: seq<Net>, steps: seq<Step>, i: nat)
    requires Run(start, ws, steps) && i <= |steps| && Deployed(start.reg) && start.flights == []
    requires forall j :: 0 <= j <= i ==> ws[j].reg.cfg.fees.creationDeposit == start.reg.cfg.fees.creationDeposit
    requires forall j :: 0 <= j < i ==> Considerate(ws[j], steps[j])
    ensures Over(TakenIn, ws, steps, i)
            == ws[i].reg.money.revenue + Sum(ws[i].reg.money.refunds) + Held(ws[i].flights)
               + Over(SentOn, ws, steps, i) + Over(PaidOut, ws, steps, i)
    ensures Provisional(ws[i], start.reg.cfg.fees.creationDeposit)
  {
    RefundsAlwaysAddUp(start, ws, steps, i);
    if i > 0 {
      MoneyIsConserved(start, ws, steps, i - 1);
      RefundsAlwaysAddUp(start, ws, steps, i - 1);
      var deposit := start.reg.cfg.fees.creationDeposit;
      assert ws[i - 1 + 1] == Next(ws[i - 1], steps[i - 1]);
      StepBalances(ws[i - 1], steps[i - 1], deposit);
      StepStaysProvisional(ws[i - 1], steps[i - 1], deposit);
    }
  }
}
