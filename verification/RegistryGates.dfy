/** What stops a call on the registry: a pause, a running term, a cap, a missing licence; and whose refund a failure is. */
module RegistryGates {
  import opened Common
  import opened RegistryTypes
  import opened NameTable
  import opened RegistryModel
  import opened IndexRuns
  import opened MoneyRuns
  import opened RegistryClocks
  import opened Intents
  import Agreement
  import Lifecycle

  // ---------------------------------------------------------------- pauses

  predicate Accepts(w: Net, t: Step) {
    t.Request? && Apply(w.reg, t.x, t.call).Some?
  }

  /** The calls a pause lets through: renewals, a venue's own names, refunds and governance. */
  predicate PassesPause(s: Registry, t: Step)
    requires t.Request?
  {
    if OnName(t.call) then t.call.RenewSub? || (Hands(t.call) && t.x.caller in s.cfg.venues)
    else !t.call.ActivateTla? && !t.call.RenewTla?
  }

  lemma PauseRefuses(s: Registry, t: Step)
    requires t.Request? && Paused(s, t.x.now) && Apply(s, t.x, t.call).Some?
    ensures PassesPause(s, t)
  {
  }

  /** An admin's pause. */
  predicate Pauses(w: Net, t: Step) {
    Accepts(w, t) && t.call.Pause? && t.x.caller in w.reg.cfg.admins
  }

  lemma OnlyAdminsPause(w: Net, t: Step)
    requires Accepts(w, t) && t.call.Pause?
    ensures Pauses(w, t)
  {
  }

  predicate Lifts(w: Net, t: Step) {
    Accepts(w, t) && t.call.Unpause?
  }

  /**
   A pause stops the registry: for seven days from an admin's pause, until it is lifted, no call on a name
   is accepted but a renewal or a venue handing its own names out, and no account is activated or renewed.
   */
  lemma PausesStopTheRegistry(start: Net, ws: seq<Net>, steps: seq<Step>, j: nat, i: nat)
    requires Run(start, ws, steps) && Timed(steps) && ClocksReset(start.reg) && j < i < |steps| && Pauses(ws[j], steps[j])
    requires forall k :: j < k < i ==> !Lifts(ws[k], steps[k])
    requires TimeOf(steps[i]) < TimeOf(steps[j]) + MAX_AUTHORITY_HOLD_NS && Accepts(ws[i], steps[i])
    ensures PassesPause(ws[i].reg, steps[i])
  {
    RunsProject(start, ws, steps);
    Lifecycle.PauseStands(PauseStates(ws), PauseSteps(ws, steps), j, i);
    PauseRefuses(ws[i].reg, steps[i]);
  }

  // ---------------------------------------------------------------- terms

  /** The call dates a retraction of the name. */
  predicate Dates(w: Net, t: Step, key: Key) {
    Accepts(w, t) && (t.call.Retract? || t.call.Reclaim?) && NameKey(t.call) == key
  }

  lemma CallDates(s: Registry, x: Ctx, call: Call, key: Key, r: nat)
    requires Apply(s, x, call).Some? && key in Apply(s, x, call).value.state.names.subs
    requires Apply(s, x, call).value.state.names.subs[key].retractionAt == Some(r)
    ensures (key in s.names.subs && s.names.subs[key].retractionAt == Some(r))
            || ((call.Retract? || call.Reclaim?) && NameKey(call) == key && x.now == r)
  {
    if call.Rent? || call.RentPaid? || call.ClaimName? {
      Agreement.MintStarts(s, x, call, None);
      CallsStartTheirChain(s, x, call);
    } else if call.Retract? || call.Reclaim? {
      NoticeEffect(s, x, call);
    } else {
      QuietCalls(s, x, call);
    }
  }

  lemma SettleDates(s: Registry, now: nat, f: Flight, outcome: Outcome, key: Key, r: nat)
    requires Settle(s, now, f, outcome).Some? && key in Settle(s, now, f, outcome).value.state.names.subs
    requires Settle(s, now, f, outcome).value.state.names.subs[key].retractionAt == Some(r)
    ensures key in s.names.subs && s.names.subs[key].retractionAt == Some(r)
  {
    if Minting(f) {
      MintNames(s, now, f, outcome);
    } else if f.ReclaimFlight? {
      ReclaimNames(s, now, f, outcome);
    } else if f.MoveFlight? || f.ReturnFlight? || f.RecoverFlight? {
      MoveEffect(s, now, f, outcome);
    } else if !(f.RenewFlight? || f.PayoutFlight? || f.RetractFlight? || f.RestoreFlight?) {
      QuietSettles(s, now, f, outcome);
    }
  }

  /** A retraction on record was dated by an accepted call at just that time. */
  lemma {:induction false} RetractionOrigin(start: Net, ws: seq<Net>, steps: seq<Step>, i: nat, key: Key, r: nat) returns (j: nat)
    requires Run(start, ws, steps) && i <= |steps| && Deployed(start.reg) && key in ws[i].reg.names.subs
    requires ws[i].reg.names.subs[key].retractionAt == Some(r)
    ensures j < i && Dates(ws[j], steps[j], key) && TimeOf(steps[j]) == r
  {
    var w, t := ws[i - 1], steps[i - 1];
    assert ws[i - 1 + 1] == Next(w, t);
    match t {
      case Request(x, call) =>
        if Apply(w.reg, x, call).Some? {
          CallDates(w.reg, x, call, key, r);
        }
      case Deliver(now, k, outcome) =>
        if k < |w.flights| && Settle(w.reg, now, w.flights[k], outcome).Some? {
          SettleDates(w.reg, now, w.flights[k], outcome, key, r);
        }
    }
    if key in w.reg.names.subs && w.reg.names.subs[key].retractionAt == Some(r) {
      j := RetractionOrigin(start, ws, steps, i - 1, key, r);
    } else {
      j := i - 1;
    }
  }

  lemma ReclaimNeedsEnd(s: Registry, x: Ctx, call: Call)
    requires call.Reclaim? && Apply(s, x, call).Some? && x.now < MAX_U64
    ensures NameKey(call) in s.names.subs && call.tla in s.tlas
    ensures var sub, tla, grace, notice := s.names.subs[NameKey(call)], s.tlas[call.tla], s.cfg.grace, s.cfg.fees.retractionNotice;
            && (x.now >= sub.expiresAt + grace || x.now >= tla.expiresAt + grace
                || (sub.retractionAt.Some? && x.now >= sub.retractionAt.value + notice))
            && (GivesNotice(sub, x.now) || x.now >= sub.expiresAt || x.now >= sub.retractionAt.value + notice)
  {
  }

  /**
   No term is cut short without notice: a reclaim that takes a name does so after its term, or at least
   the notice period after an accepted call put the retraction on record; and only past the grace of the
   name or its top-level account, or on such a retraction.
   */
  lemma TermsEndWithNotice(start: Net, ws: seq<Net>, steps: seq<Step>, i: nat) returns (j: nat)
    requires Run(start, ws, steps) && Timed(steps) && i < |steps| && Deployed(start.reg)
    requires Accepts(ws[i], steps[i]) && steps[i].call.Reclaim?
    ensures NameKey(steps[i].call) in ws[i].reg.names.subs && steps[i].call.tla in ws[i].reg.tlas
    ensures var s, now, key := ws[i].reg, TimeOf(steps[i]), NameKey(steps[i].call);
            var sub, noticed := s.names.subs[key], j < i && Dates(ws[j], steps[j], key) && now >= TimeOf(steps[j]) + s.cfg.fees.retractionNotice;
            && (GivesNotice(sub, now) || now >= sub.expiresAt || noticed)
            && (now >= sub.expiresAt + s.cfg.grace || now >= s.tlas[steps[i].call.tla].expiresAt + s.cfg.grace || noticed)
  {
    j := 0;
    ReclaimNeedsEnd(ws[i].reg, steps[i].x, steps[i].call);
    var sub := ws[i].reg.names.subs[NameKey(steps[i].call)];
    if sub.retractionAt.Some? {
      j := RetractionOrigin(start, ws, steps, i, NameKey(steps[i].call), sub.retractionAt.value);
    }
  }

  // ---------------------------------------------------------------- licences, caps and lists

  predicate Mints(call: Call) {
    call.Rent? || call.RentPaid? || call.ClaimName?
  }

  /** Who may mint under a business account: its licensee, an order paid out to its licensee, or a whitelisted claimer. */
  predicate Licensed(s: Registry, x: Ctx, call: Call)
    requires Mints(call) && call.tla in s.tlas
  {
    match call
    case Rent(tla, _, owner) => s.tlas[tla].licensee == (if owner.Some? then owner else Some(x.caller))
    case RentPaid(tla, _, _, payout, _) => s.tlas[tla].licensee == Some(payout)
    case ClaimName(tla, _) => (tla, x.caller) in s.whitelist
  }

  lemma MintsAreLicensed(s: Registry, x: Ctx, call: Call)
    requires Mints(call) && Apply(s, x, call).Some?
    ensures call.tla in s.tlas && x.now < s.tlas[call.tla].expiresAt && NameKey(call) !in s.names.subs
    ensures s.tlas[call.tla].kind.Business? ==> Licensed(s, x, call) && Count(s, call.tla) < Cap(s, call.tla)
    ensures call.ClaimName? ==> s.tlas[call.tla].kind.Business? && (call.tla, x.caller) !in Apply(s, x, call).value.state.whitelist
    ensures call.Rent? && call.owner.Some? && call.owner.value != x.caller ==> x.caller in s.cfg.payAuthorities
    ensures call.RentPaid? ==> x.caller in s.cfg.payAuthorities && (x.caller, call.tla) in s.ord.allowance
  {
  }

  /** A business account that was never open has at most its cap of names whenever one is minted. */
  lemma NamesStayWithinTheCap(start: Net, ws: seq<Net>, steps: seq<Step>, i: nat)
    requires Run(start, ws, steps) && i < |steps| && Deployed(start.reg) && start.flights == []
    requires Accepts(ws[i], steps[i]) && Mints(steps[i].call)
    requires forall j :: 0 <= j <= i ==> NotOpen(ws[j].reg, steps[i].call.tla)
    ensures |Bucket(ws[i + 1].reg.names.byTla, steps[i].call.tla)| <= Cap(ws[i].reg, steps[i].call.tla)
  {
    BusinessCountsAreExact(start, ws, steps, i + 1, steps[i].call.tla);
    assert ws[i + 1] == Next(ws[i], steps[i]);
    MintsAreLicensed(ws[i].reg, steps[i].x, steps[i].call);
    MintCountsOne(ws[i].reg, steps[i].x, steps[i].call);
  }

  lemma MintCountsOne(s: Registry, x: Ctx, call: Call)
    requires Mints(call) && Apply(s, x, call).Some? && IsBusiness(s, call.tla)
    ensures Count(Apply(s, x, call).value.state, call.tla) == Count(s, call.tla) + 1
  {
  }

  /** A retraction is dated or cancelled only under a business account, by its licensee or, once resale is open, by the governors. */
  lemma RetractionsNeedTheLicensee(s: Registry, x: Ctx, call: Call)
    requires (call.Retract? || call.CancelRetraction?) && Apply(s, x, call).Some?
    ensures call.tla in s.tlas && (call.Retract? ==> s.tlas[call.tla].kind.Business?)
    ensures if call.tla in s.cfg.resale then x.caller == s.cfg.council || x.caller in s.cfg.admins
            else s.tlas[call.tla].licensee == Some(x.caller)
    ensures NameKey(call) in s.names.subs && (call.Retract? <==> s.names.subs[NameKey(call)].retractionAt.None?)
  {
  }

  /** An owner hands on only a live name free of retraction, of an open or resale account, and never to another name but a venue's. */
  lemma HandoversNeedALiveName(s: Registry, x: Ctx, call: Call)
    requires Hands(call) && Apply(s, x, call).Some? && x.caller !in s.cfg.venues
    ensures NameKey(call) in s.names.subs && NameKey(call) !in s.reclaimPending
    ensures var sub := s.names.subs[NameKey(call)];
            && x.caller == sub.owner != call.to && call.to != NameKey(call)
            && x.now < sub.expiresAt && sub.retractionAt.None?
            && sub.tla in s.tlas && (s.tlas[sub.tla].kind.Open? || sub.tla in s.cfg.resale)
            && (call.to in s.names.subs ==> call.to in s.cfg.venues)
  {
    if call.TransferSub? {
      Transferables(s, x, Plain, call.tla, call.name, call.to);
    } else {
      var tla, name := SplitToken(s, call.token);
      Transferables(s, x, if call.NftTransfer? then Nft else NftCall, tla, name, call.to);
    }
  }

  lemma Transferables(s: Registry, x: Ctx, style: Style, tla: AccountId, name: string, to: AccountId)
    requires TransferBy(s, x, style, tla, name, to).Some? && x.caller !in s.cfg.venues
    ensures KeyOf(tla, name) in s.names.subs && KeyOf(tla, name) !in s.reclaimPending
    ensures var sub := s.names.subs[KeyOf(tla, name)];
            && x.caller == sub.owner != to && to != KeyOf(tla, name)
            && x.now < sub.expiresAt && sub.retractionAt.None?
            && sub.tla in s.tlas && (s.tlas[sub.tla].kind.Open? || sub.tla in s.cfg.resale)
            && (to in s.names.subs ==> to in s.cfg.venues)
  {
  }

  // ---------------------------------------------------------------- refunds

  function Owed(m: Money, account: AccountId): nat {
    if account in m.refunds then m.refunds[account] else 0
  }

  /** A failed mint is refunded in full to whoever called, not to the tenant named. */
  lemma FailedMintsRefundTheCaller(s: Registry, x: Ctx, call: Call, f: Flight, s2: Registry, now: nat, outcome: Outcome)
    requires Mints(call) && Apply(s, x, call).Some? && Apply(s, x, call).value.flight.Some? && !outcome.Succeeded?
    requires f == Apply(s, x, call).value.flight.value || Becomes(Apply(s, x, call).value.flight.value, f)
    requires NameKey(call) in s2.names.subs
    ensures Settle(s2, now, f, outcome).Some?
    ensures var s' := Settle(s2, now, f, outcome).value.state;
            && Owed(s'.money, x.caller) == Owed(s2.money, x.caller) + x.deposit
            && (forall a :: a != x.caller ==> Owed(s'.money, a) == Owed(s2.money, a))
            && NameKey(call) !in s'.names.subs
  {
    CallerPays(s, x, call, f);
    FailureBalances(s2, now, f, outcome);
  }

  lemma CallerPays(s: Registry, x: Ctx, call: Call, f: Flight)
    requires Mints(call) && Apply(s, x, call).Some? && Apply(s, x, call).value.flight.Some?
    requires f == Apply(s, x, call).value.flight.value || Becomes(Apply(s, x, call).value.flight.value, f)
    ensures Minting(f) && MintKey(f) == NameKey(call) && f.m.payer == x.caller && f.m.attached == x.deposit
  {
    var s1, kind, m, payout, reRent := MintCall(s, x, call);
  }

  lemma FailureBalances(s: Registry, now: nat, f: Flight, outcome: Outcome)
    requires Minting(f) && !outcome.Succeeded? && MintKey(f) in s.names.subs
    ensures Settle(s, now, f, outcome).Some?
    ensures Settle(s, now, f, outcome).value.state.money == AddRefund(s.money, f.m.payer, f.m.attached)
    ensures MintKey(f) !in Settle(s, now, f, outcome).value.state.names.subs
  {
    assert Settle(s, now, f, outcome).Some?;
    SettleBooks(s, now, f, outcome);
    MintNames(s, now, f, outcome);
  }

  /** A refund claimed is all that is owed to the caller, leaves with them, and returns to them if the transfer fails. */
  lemma RefundsReachTheirAccount(s: Registry, x: Ctx, s2: Registry, now: nat)
    requires Apply(s, x, ClaimRefund).Some?
    ensures var done := Apply(s, x, ClaimRefund).value;
            && Owed(done.state.money, x.caller) == 0 < Owed(s.money, x.caller) <= x.available
            && (forall a :: a != x.caller ==> Owed(done.state.money, a) == Owed(s.money, a))
            && done.flight.Some? && HeldBy(done.flight.value) == Owed(s.money, x.caller)
            && Settle(s2, now, done.flight.value, Succeeded) == Quiet(s2)
            && Settle(s2, now, done.flight.value, Failed).Some?
            && var s' := Settle(s2, now, done.flight.value, Failed).value.state;
               Owed(s'.money, x.caller) == Owed(s2.money, x.caller) + Owed(s.money, x.caller)
               && forall a :: a != x.caller ==> Owed(s'.money, a) == Owed(s2.money, a)
  {
  }

  // ---------------------------------------------------------------- the price

  lemma CallsKeepTheRate(s: Registry, x: Ctx, call: Call)
    requires Apply(s, x, call).Some? && Apply(s, x, call).value.state.rate != s.rate
    ensures (call.OracleRate? && x.caller == s.cfg.oracle && s.rate.rate != 0)
            || (call.InitialRate? && x.caller == s.cfg.council && x.deposit == 1 && s.rate.rate == 0)
  {
    if !SetsClocks(call) {
      CallKeepsClocks(s, x, call);
    }
  }

  /** The price moves only by the oracle of the day, once the council has set it. */
  lemma RatesMoveByTheirKeepers(start: Net, ws: seq<Net>, steps: seq<Step>, i: nat)
    requires Run(start, ws, steps) && i < |steps| && ws[i + 1].reg.rate != ws[i].reg.rate
    ensures Accepts(ws[i], steps[i])
    ensures var s, x, call := ws[i].reg, steps[i].x, steps[i].call;
            (call.OracleRate? && x.caller == s.cfg.oracle && s.rate.rate != 0)
            || (call.InitialRate? && x.caller == s.cfg.council && x.deposit == 1 && s.rate.rate == 0)
  {
    var w, t := ws[i], steps[i];
    assert ws[i + 1] == Next(w, t);
    if t.Deliver? {
      if t.which < |w.flights| && Settle(w.reg, t.now, w.flights[t.which], t.outcome).Some? {
        SettleKeepsClocks(w.reg, t.now, w.flights[t.which], t.outcome);
      }
    } else {
      CallsKeepTheRate(w.reg, t.x, t.call);
    }
  }
}
