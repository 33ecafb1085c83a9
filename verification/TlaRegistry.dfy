/**
 The registry contract with its storage updated in place. Every method is tied to the
 state machine of `RegistryModel`, whose runs carry the theorems.
 */
module TlaRegistry {
  import opened Common
  import opened RegistryTypes
  import opened NameTable
  import opened RegistryModel
  import Lifecycle
  import Pricing
  import Rates

  class TlaRegistry {
    var subAccounts: map<Key, Sub>
    var byOwner: Index
    var byTla: Index
    var claimed: set<Key>
    var totalRevenue: nat
    var pendingRefunds: map<AccountId, nat>
    var totalPendingRefunds: nat
    var paidOrders: map<string, Order>
    var authorityAllowance: map<Grant, nat>
    var authorityUsed: map<Grant, nat>
    var tlas: map<AccountId, Tla>
    var businessSubCount: map<AccountId, nat>
    var subAccountCount: nat
    var parkedNames: map<Key, ParkedEntry>
    var reclaimPending: set<Key>
    var whitelist: set<Grant>
    var rate: nat
    var rateUpdatedAt: nat
    var rateSequence: nat
    var paused: bool
    var pausedUntil: nat
    var unpausedAt: nat
    var cfg: Config

    function Names(): Table
      reads `subAccounts, `byOwner, `byTla, `claimed
    {
      Table(subAccounts, byOwner, byTla, claimed)
    }

    function Books(): Money
      reads `totalRevenue, `pendingRefunds, `totalPendingRefunds
    {
      Money(totalRevenue, pendingRefunds, totalPendingRefunds)
    }

    function OrderBook(): Orders
      reads `paidOrders, `authorityAllowance, `authorityUsed
    {
      Orders(paidOrders, authorityAllowance, authorityUsed)
    }

    function Snapshot(): Registry
      reads this
    {
      Registry(Names(), Books(), OrderBook(), tlas, businessSubCount, subAccountCount, parkedNames, reclaimPending, whitelist,
               RateBook(rate, rateUpdatedAt, rateSequence), PauseBook(paused, pausedUntil, unpausedAt), cfg)
    }

    constructor (council: AccountId, treasury: AccountId, oracle: AccountId, admins: set<AccountId>, grace: nat, leaseTerm: nat)
      ensures Snapshot() == Init(council, treasury, oracle, admins, grace, leaseTerm)
    {
      subAccounts, byOwner, byTla, claimed := map[], map[], map[], {};
      totalRevenue, pendingRefunds, totalPendingRefunds := 0, map[], 0;
      paidOrders, authorityAllowance, authorityUsed := map[], map[], map[];
      tlas, businessSubCount, subAccountCount, parkedNames, reclaimPending, whitelist := map[], map[], 0, map[], {}, {};
      rate, rateUpdatedAt, rateSequence := 0, 0, 0;
      paused, pausedUntil, unpausedAt := false, 0, 0;
      cfg := Config(council, treasury, oracle, admins, {}, {}, {}, {}, {}, map[], map[], map[], false, grace, leaseTerm, Rates.DefaultFees());
    }

    // -------------------------------------------------------------- indexes

    method IndexByOwner(owner: AccountId, key: Key)
      modifies `byOwner
      ensures byOwner == IndexAdd(old(byOwner), owner, key)
    {
      if owner !in byOwner {
        byOwner := byOwner[owner := []];
      }
      if key !in byOwner[owner] {
        byOwner := byOwner[owner := byOwner[owner] + [key]];
      }
    }

    method IndexByTla(tla: AccountId, key: Key)
      modifies `byTla
      ensures byTla == IndexAdd(old(byTla), tla, key)
    {
      if tla !in byTla {
        byTla := byTla[tla := []];
      }
      if key !in byTla[tla] {
        byTla := byTla[tla := byTla[tla] + [key]];
      }
    }

    method UnindexByOwner(owner: AccountId, key: Key)
      modifies `byOwner
      ensures byOwner == IndexRemove(old(byOwner), owner, key)
    {
      if owner !in byOwner {
        return;
      }
      byOwner := byOwner[owner := SwapRemove(byOwner[owner], key)];
      if byOwner[owner] == [] {
        byOwner := byOwner - {owner};
      }
    }

    method UnindexByTla(tla: AccountId, key: Key)
      modifies `byTla
      ensures byTla == IndexRemove(old(byTla), tla, key)
    {
      if tla !in byTla {
        return;
      }
      byTla := byTla[tla := SwapRemove(byTla[tla], key)];
      if byTla[tla] == [] {
        byTla := byTla - {tla};
      }
    }

    method IndexEntry(key: Key, entry: Sub)
      modifies `byOwner, `byTla
      ensures Names() == old(Names()).(byOwner := IndexAdd(old(byOwner), entry.owner, key), byTla := IndexAdd(old(byTla), entry.tla, key))
      ensures Snapshot() == old(Snapshot()).(names := Names())
    {
      IndexByOwner(entry.owner, key);
      IndexByTla(entry.tla, key);
    }

    method UnindexEntry(key: Key, entry: Sub)
      modifies `byOwner, `byTla
      ensures Names() == old(Names()).(byOwner := IndexRemove(old(byOwner), entry.owner, key), byTla := IndexRemove(old(byTla), entry.tla, key))
      ensures Snapshot() == old(Snapshot()).(names := Names())
    {
      UnindexByOwner(entry.owner, key);
      UnindexByTla(entry.tla, key);
    }

    method SubAccountInsert(key: Key, entry: Sub)
      modifies `subAccounts, `byOwner, `byTla
      ensures Names() == Insert(old(Names()), key, entry)
      ensures Snapshot() == old(Snapshot()).(names := Names())
    {
      IndexEntry(key, entry);
      subAccounts := subAccounts[key := entry];
    }

    method SubAccountRemove(key: Key) returns (removed: Option<Sub>)
      modifies `subAccounts, `byOwner, `byTla, `claimed
      ensures removed == if key in old(subAccounts) then Some(old(subAccounts)[key]) else None
      ensures Names() == Remove(old(Names()), key)
      ensures Snapshot() == old(Snapshot()).(names := Names())
    {
      if key !in subAccounts {
        return None;
      }
      removed := Some(subAccounts[key]);
      UnindexEntry(key, removed.value);
      subAccounts := subAccounts - {key};
      claimed := claimed - {key};
    }

    method SubAccountReassign(key: Key, owner: AccountId, payout: AccountId) returns (ok: bool)
      modifies `subAccounts, `byOwner
      ensures ok == (key in old(subAccounts))
      ensures Names() == if ok then Reassign(old(Names()), key, owner, payout) else old(Names())
      ensures Snapshot() == old(Snapshot()).(names := Names())
    {
      if key !in subAccounts {
        return false;
      }
      var previous := subAccounts[key].owner;
      subAccounts := subAccounts[key := subAccounts[key].(owner := owner, payout := payout)];
      if previous != owner {
        UnindexByOwner(previous, key);
        IndexByOwner(owner, key);
      }
      ok := true;
    }

    // -------------------------------------------------------------- money

    method AddPendingRefund(account: AccountId, amount: nat)
      modifies `pendingRefunds, `totalPendingRefunds
      ensures Books() == AddRefund(old(Books()), account, amount)
      ensures Snapshot() == old(Snapshot()).(money := Books())
    {
      var existing := if account in pendingRefunds then pendingRefunds[account] else 0;
      pendingRefunds := pendingRefunds[account := existing + amount];
      totalPendingRefunds := totalPendingRefunds + amount;
    }

    method RefundExcess(payer: AccountId, attached: nat, charged: nat)
      modifies `pendingRefunds, `totalPendingRefunds
      ensures Books() == RegistryModel.RefundExcess(old(Books()), payer, attached, charged)
      ensures Snapshot() == old(Snapshot()).(money := Books())
    {
      var excess := SatSub(attached, charged);
      if excess > 0 {
        AddPendingRefund(payer, excess);
      }
    }

    method EarnRevenue(amount: nat)
      modifies `totalRevenue
      ensures Books() == Earn(old(Books()), amount)
      ensures Snapshot() == old(Snapshot()).(money := Books())
    {
      totalRevenue := totalRevenue + amount;
    }

    method ClaimRefund(x: Ctx) returns (flight: Option<Flight>)
      modifies `pendingRefunds, `totalPendingRefunds
      ensures Answers(ClaimRefundBy(old(Snapshot()), x), old(Snapshot()), Snapshot(), flight.Some?, flight)
    {
      var amount := if x.caller in pendingRefunds then pendingRefunds[x.caller] else 0;
      if amount == 0 || amount > x.available {
        return None;
      }
      pendingRefunds := pendingRefunds - {x.caller};
      totalPendingRefunds := SatSub(totalPendingRefunds, amount);
      flight := Some(RefundFlight(x.caller, amount));
    }

    method OnClaimRefundSettled(caller: AccountId, amount: nat, outcome: Outcome)
      modifies `pendingRefunds, `totalPendingRefunds
      ensures Settle(old(Snapshot()), 0, RefundFlight(caller, amount), outcome) == Quiet(Snapshot())
    {
      if !outcome.Succeeded? {
        AddPendingRefund(caller, amount);
      }
    }

    method Withdraw(x: Ctx, amount: nat) returns (ok: bool)
      modifies `totalRevenue, `pendingRefunds, `totalPendingRefunds
      ensures Answers(WithdrawBy(old(Snapshot()), x, amount), old(Snapshot()), Snapshot(), ok, None)
    {
      if x.deposit != 1 || (x.caller != cfg.treasury && x.caller != cfg.council) {
        return false;
      }
      if amount == 0 || amount > totalRevenue || totalPendingRefunds + amount > x.available {
        return false;
      }
      totalRevenue := totalRevenue - amount;
      AddPendingRefund(cfg.treasury, amount);
      ok := true;
    }

    // -------------------------------------------------------------- orders

    method RecordAuthorityMint(g: Grant)
      modifies `authorityUsed
      ensures authorityUsed == old(authorityUsed)[g := Used(old(OrderBook()), g) + 1]
    {
      var used := if g in authorityUsed then authorityUsed[g] else 0;
      authorityUsed := authorityUsed[g := used + 1];
    }

    method ReserveOrder(id: string, key: Key, tla: AccountId, payer: AccountId, now: nat)
      modifies `authorityUsed, `paidOrders
      ensures OrderBook() == Reserve(old(OrderBook()), id, key, tla, payer, now)
      ensures Snapshot() == old(Snapshot()).(ord := OrderBook())
    {
      RecordAuthorityMint((payer, tla));
      paidOrders := paidOrders[id := InFlight(key, tla, payer, now)];
    }

    method ReleaseAuthorityMint(g: Grant)
      modifies `authorityUsed
      ensures OrderBook() == GiveBack(old(OrderBook()), g)
      ensures Snapshot() == old(Snapshot()).(ord := OrderBook())
    {
      var used := if g in authorityUsed then authorityUsed[g] else 0;
      if used == 0 {
        return;
      }
      authorityUsed := authorityUsed[g := used - 1];
    }

    method ReleaseOrder(m: Settlement)
      modifies `paidOrders, `authorityUsed
      ensures OrderBook() == Release(old(OrderBook()), m.orderId, KeyOf(m.tla, m.name), m.payer, m.tla)
      ensures Snapshot() == old(Snapshot()).(ord := OrderBook())
    {
      var key := KeyOf(m.tla, m.name);
      if m.orderId.None? {
        return;
      }
      var id := m.orderId.value;
      if id !in paidOrders || !paidOrders[id].InFlight? || paidOrders[id].fullName != key || paidOrders[id].payer != m.payer {
        return;
      }
      paidOrders := paidOrders - {id};
      ReleaseAuthorityMint((m.payer, m.tla));
    }

    method ConfirmOrder(m: Settlement)
      modifies `paidOrders
      ensures OrderBook() == Confirm(old(OrderBook()), m.orderId, KeyOf(m.tla, m.name), m.payer)
      ensures Snapshot() == old(Snapshot()).(ord := OrderBook())
    {
      if m.orderId.None? || m.orderId.value !in paidOrders {
        return;
      }
      var reserved := paidOrders[m.orderId.value];
      if !reserved.InFlight? || reserved.fullName != KeyOf(m.tla, m.name) || reserved.payer != m.payer {
        return;
      }
      paidOrders := paidOrders[m.orderId.value := Settled];
    }

    method AdminReleasePaidOrder(x: Ctx, id: string) returns (ok: bool)
      modifies `paidOrders, `authorityUsed
      ensures Answers(ReleaseOrderBy(old(Snapshot()), x, id), old(Snapshot()), Snapshot(), ok, None)
    {
      if x.deposit != 1 || x.caller !in cfg.admins || id !in paidOrders {
        return false;
      }
      var order := paidOrders[id];
      if order.Settled? || SatSub(x.now, order.startedAt) < MANUAL_ORDER_RELEASE_AFTER_NS {
        return false;
      }
      paidOrders := paidOrders - {id};
      ReleaseAuthorityMint((order.payer, order.tla));
      ok := true;
    }

    // -------------------------------------------------------------- business counts

    method BusinessCountCheckAndBump(tla: AccountId) returns (ok: bool)
      modifies `businessSubCount
      ensures ok == (Count(old(Snapshot()), tla) < Cap(old(Snapshot()), tla))
      ensures Snapshot() == if ok then Bump(old(Snapshot()), tla) else old(Snapshot())
    {
      var cap := if tla in cfg.businessCap then cfg.businessCap[tla] else cfg.fees.businessMaxSubs;
      var count := if tla in businessSubCount then businessSubCount[tla] else 0;
      if count >= cap {
        return false;
      }
      businessSubCount := businessSubCount[tla := count + 1];
      ok := true;
    }

    method BusinessCountDecrementIfBusiness(tla: AccountId)
      modifies `businessSubCount
      ensures Snapshot() == Unbump(old(Snapshot()), tla)
    {
      if tla !in tlas || !tlas[tla].kind.Business? {
        return;
      }
      var count := if tla in businessSubCount then businessSubCount[tla] else 0;
      if count == 0 {
        return;
      }
      if count == 1 {
        businessSubCount := businessSubCount - {tla};
      } else {
        businessSubCount := businessSubCount[tla := count - 1];
      }
    }

    // -------------------------------------------------------------- renting

    /** The provisional part of every mint: count the name, write its entry. */
    method OpenCounted(now: nat, m: Settlement, payout: AccountId) returns (expiresAt: nat)
      requires WithinCap(Snapshot(), m.tla)
      modifies `businessSubCount, `subAccounts, `byOwner, `byTla
      ensures expiresAt == SatAdd(now, cfg.leaseTerm)
      ensures Snapshot() == OpenLease(if IsBusiness(old(Snapshot()), m.tla) then Bump(old(Snapshot()), m.tla) else old(Snapshot()),
                                      now, m.tla, m.name, m.owner, payout)
    {
      if m.tla in tlas && tlas[m.tla].kind.Business? {
        var bumped := BusinessCountCheckAndBump(m.tla);
      }
      expiresAt := SatAdd(now, cfg.leaseTerm);
      SubAccountInsert(KeyOf(m.tla, m.name), Sub(m.owner, m.tla, payout, now, expiresAt, None));
    }

    method StartLease(now: nat, kind: MintKind, m: Settlement, payout: AccountId, reRent: bool) returns (flight: Flight)
      requires WithinCap(Snapshot(), m.tla)
      modifies `businessSubCount, `subAccounts, `byOwner, `byTla
      ensures StartMint(old(Snapshot()), now, kind, m, payout, reRent) == Done(Snapshot(), Some(flight))
    {
      var expiresAt := OpenCounted(now, m, payout);
      if !reRent {
        return MintFlight(kind, m, payout, expiresAt, cfg.fees.creationDeposit);
      }
      flight := if cfg.allowlist == {} then ReRentFlight(m, payout, expiresAt) else ReRentGate(m, payout, expiresAt);
    }

    method RentSubAccount(x: Ctx, tla: AccountId, name: string, owner: Option<AccountId>) returns (flight: Option<Flight>)
      modifies `businessSubCount, `subAccounts, `byOwner, `byTla
      ensures Answers(RentName(old(Snapshot()), x, tla, name, owner), old(Snapshot()), Snapshot(), flight.Some?, flight)
    {
      var s := Snapshot();
      var key := KeyOf(tla, name);
      if Paused(s, x.now) || !MintableName(tla, name) || key in subAccounts {
        return None;
      }
      var reRent := key in parkedNames;
      if reRent && Bucket(byOwner, key) != [] {
        return None;
      }
      var holder := if owner.Some? then owner.value else x.caller;
      if holder != x.caller && x.caller !in cfg.payAuthorities {
        return None;
      }
      if !Accepting(s, tla, holder, x.now) {
        return None;
      }
      var rent := Price(s, NameRent(s, tla, name), x.now);
      if rent.None? || x.deposit < rent.value + (if reRent then 0 else cfg.fees.creationDeposit) || !WithinCap(s, tla) {
        return None;
      }
      var m := Settlement(tla, name, holder, x.caller, rent.value, x.deposit, None);
      var f := StartLease(x.now, Rental, m, holder, reRent);
      flight := Some(f);
    }

    method RentSubAccountPaid(x: Ctx, tla: AccountId, name: string, holder: AccountId, payout: AccountId, id: string)
      returns (flight: Option<Flight>)
      modifies `businessSubCount, `subAccounts, `byOwner, `byTla, `authorityUsed, `paidOrders
      ensures Answers(RentNamePaid(old(Snapshot()), x, tla, name, holder, payout, id), old(Snapshot()), Snapshot(), flight.Some?, flight)
    {
      var s := Snapshot();
      if !PaidRentAllowed(s, x, tla, name, payout, id) {
        return None;
      }
      var key := KeyOf(tla, name);
      var m := Settlement(tla, name, holder, x.caller, 0, x.deposit, Some(id));
      ReserveOrder(id, key, tla, x.caller, x.now);
      var f := StartLease(x.now, PaidRental, m, payout, key in parkedNames);
      flight := Some(f);
    }

    method ClaimName(x: Ctx, tla: AccountId, name: string) returns (flight: Option<Flight>)
      modifies `businessSubCount, `subAccounts, `byOwner, `byTla, `whitelist, `claimed
      ensures Answers(ClaimBusinessName(old(Snapshot()), x, tla, name), old(Snapshot()), Snapshot(), flight.Some?, flight)
    {
      var s := Snapshot();
      if !ClaimAllowed(s, x, tla, name) {
        return None;
      }
      whitelist := whitelist - {(tla, x.caller)};
      claimed := claimed + {KeyOf(tla, name)};
      assert Snapshot() == Marked(s, tla, name, x.caller);
      var m := Settlement(tla, name, x.caller, x.caller, 0, x.deposit, None);
      var f := StartLease(x.now, BusinessClaim, m, x.caller, false);
      flight := Some(f);
    }

    method ActivateTla(x: Ctx, tla: AccountId) returns (ok: bool)
      modifies `tlas, `totalRevenue, `pendingRefunds, `totalPendingRefunds
      ensures Answers(ActivateTlaBy(old(Snapshot()), x, tla), old(Snapshot()), Snapshot(), ok, None)
    {
      var s := Snapshot();
      var fee := Price(s, AllocationFee(s, tla) + TlaRent(s, tla), x.now);
      if Paused(s, x.now) || fee.None? || x.deposit < fee.value || tla !in tlas {
        return false;
      }
      var entry := tlas[tla];
      if !entry.status.TlaRegistered? || !entry.kind.Business? || entry.licensee != Some(x.caller) {
        return false;
      }
      tlas := tlas[tla := entry.(status := TlaActive, activatedAt := x.now, expiresAt := SatAdd(x.now, ONE_YEAR_NS))];
      EarnRevenue(fee.value);
      RefundExcess(x.caller, x.deposit, fee.value);
      ok := true;
    }

    method RenewTla(x: Ctx, tla: AccountId) returns (ok: bool)
      modifies `tlas, `totalRevenue, `pendingRefunds, `totalPendingRefunds
      ensures Answers(RenewTlaBy(old(Snapshot()), x, tla), old(Snapshot()), Snapshot(), ok, None)
    {
      var s := Snapshot();
      var rent := Price(s, TlaRent(s, tla), x.now);
      if Paused(s, x.now) || rent.None? || tla !in tlas {
        return false;
      }
      var entry := tlas[tla];
      if !entry.status.TlaActive? || x.now >= SatAdd(entry.expiresAt, cfg.grace) {
        return false;
      }
      if entry.kind.Business? {
        if entry.licensee != Some(x.caller) {
          return false;
        }
      } else if x.caller !in cfg.admins {
        return false;
      }
      if x.deposit < rent.value {
        return false;
      }
      tlas := tlas[tla := entry.(expiresAt := SatAdd(Max(x.now, entry.expiresAt), ONE_YEAR_NS))];
      EarnRevenue(rent.value);
      RefundExcess(x.caller, x.deposit, rent.value);
      ok := true;
    }

    method RenewSubAccount(x: Ctx, tla: AccountId, name: string) returns (flight: Option<Flight>)
      modifies `pendingRefunds, `totalPendingRefunds
      ensures Answers(RenewSubBy(old(Snapshot()), x, tla, name), old(Snapshot()), Snapshot(), flight.Some?, flight)
    {
      var s := Snapshot();
      var key := KeyOf(tla, name);
      if !ValidName(name) || key !in subAccounts || tla !in tlas {
        return None;
      }
      var sub := subAccounts[key];
      if x.now >= SatAdd(sub.expiresAt, cfg.grace) || sub.retractionAt.Some? {
        return None;
      }
      if Lifecycle.TlaLifecycle(tlas[tla], ClockAt(s, x.now), SuspendedUntil(s, tla), x.now).Reclaimable? {
        return None;
      }
      var rent := Price(s, NameRent(s, tla, name), x.now);
      if rent.None? || x.deposit < rent.value {
        return None;
      }
      RefundExcess(x.caller, x.deposit, rent.value);
      flight := Some(RenewFlight(tla, name, SatAdd(Max(x.now, sub.expiresAt), cfg.leaseTerm), x.caller, rent.value));
    }

    // -------------------------------------------------------------- settlements

    method SettleFailedMint(m: Settlement)
      modifies `subAccounts, `byOwner, `byTla, `claimed, `businessSubCount, `pendingRefunds, `totalPendingRefunds
      ensures Snapshot() == SettleFailed(old(Snapshot()), m)
    {
      var removed := SubAccountRemove(KeyOf(m.tla, m.name));
      if removed.None? {
        return;
      }
      BusinessCountDecrementIfBusiness(m.tla);
      AddPendingRefund(m.payer, m.attached);
    }

    method SettleStrandedMint(m: Settlement, now: nat)
      modifies `subAccounts, `byOwner, `byTla, `claimed, `businessSubCount, `pendingRefunds, `totalPendingRefunds, `parkedNames
      ensures Snapshot() == SettleStranded(old(Snapshot()), m, now)
    {
      var removed := SubAccountRemove(KeyOf(m.tla, m.name));
      if removed.None? {
        return;
      }
      BusinessCountDecrementIfBusiness(m.tla);
      AddPendingRefund(m.payer, m.attached);
      parkedNames := parkedNames[KeyOf(m.tla, m.name) := ParkedEntry(m.tla, now)];
    }

    /** A callback whose entry is gone panics: it must leave no trace. */
    method RecordRental(m: Settlement) returns (ok: bool)
      modifies `paidOrders, `subAccountCount, `totalRevenue, `pendingRefunds, `totalPendingRefunds
      ensures ok == MintActive(old(Snapshot()), m).Some?
      ensures Snapshot() == if ok then MintActive(old(Snapshot()), m).value else old(Snapshot())
    {
      if KeyOf(m.tla, m.name) !in subAccounts {
        return false;
      }
      ConfirmOrder(m);
      subAccountCount := subAccountCount + 1;
      assert Snapshot() == WithConfirm(old(Snapshot()), m).(subCount := subAccountCount);
      EarnRevenue(m.rent);
      RefundExcess(m.payer, m.attached, m.rent + cfg.fees.creationDeposit);
      ok := true;
    }

    method OnSubAccountCreated(now: nat, kind: MintKind, m: Settlement, outcome: Outcome) returns (ok: bool)
      modifies this
      ensures ok == OnMinted(old(Snapshot()), now, kind, m, outcome).Some?
      ensures Snapshot() == if ok then OnMinted(old(Snapshot()), now, kind, m, outcome).value else old(Snapshot())
    {
      match outcome
      case Succeeded => ok := RecordRental(m);
      case CreationFailed =>
        if kind.BusinessClaim? {
          whitelist := whitelist + {(m.tla, m.owner)};
        }
        ReleaseOrder(m);
        SettleFailedMint(m);
        ok := true;
      case Failed =>
        ReleaseOrder(m);
        SettleStrandedMint(m, now);
        ok := true;
    }

    method OnReRentBalancesChecked(f: Flight, outcome: Outcome) returns (next: Option<Flight>)
      requires f.ReRentGate?
      modifies this
      ensures Settle(old(Snapshot()), 0, f, outcome) == Some(Done(Snapshot(), next))
    {
      if !outcome.Succeeded? {
        SettleFailedMint(f.m);
        return None;
      }
      next := Some(ReRentFlight(f.m, f.payout, f.expiresAt));
    }

    method OnSubAccountReRented(m: Settlement, outcome: Outcome) returns (ok: bool)
      modifies this
      ensures ok == OnReRented(old(Snapshot()), m, outcome).Some?
      ensures Snapshot() == if ok then OnReRented(old(Snapshot()), m, outcome).value else old(Snapshot())
    {
      if !outcome.Succeeded? {
        ReleaseOrder(m);
        SettleFailedMint(m);
        return true;
      }
      if KeyOf(m.tla, m.name) !in subAccounts {
        return false;
      }
      RecordReRent(m);
      ok := true;
    }

    method RecordReRent(m: Settlement)
      modifies `paidOrders, `parkedNames, `subAccountCount, `totalRevenue, `pendingRefunds, `totalPendingRefunds
      ensures Snapshot() == ReRentActive(old(Snapshot()), m)
    {
      ConfirmOrder(m);
      parkedNames := parkedNames - {KeyOf(m.tla, m.name)};
      subAccountCount := subAccountCount + 1;
      assert Snapshot() == WithConfirm(old(Snapshot()), m).(parked := parkedNames, subCount := subAccountCount);
      EarnRevenue(m.rent);
      RefundExcess(m.payer, m.attached, m.rent);
    }

    method OnSubAccountRenewed(tla: AccountId, name: string, expiresAt: nat, payer: AccountId, rent: nat, outcome: Outcome)
      modifies `subAccounts, `totalRevenue, `pendingRefunds, `totalPendingRefunds
      ensures Snapshot() == OnRenewed(old(Snapshot()), tla, name, expiresAt, payer, rent, outcome)
    {
      var key := KeyOf(tla, name);
      if !outcome.Succeeded? || key !in subAccounts {
        AddPendingRefund(payer, rent);
        return;
      }
      subAccounts := subAccounts[key := subAccounts[key].(expiresAt := expiresAt)];
      EarnRevenue(rent);
    }

    method OnPayoutSet(tla: AccountId, name: string, payout: AccountId, expected: AccountId, outcome: Outcome)
      modifies `subAccounts
      ensures Snapshot() == RegistryModel.OnPayoutSet(old(Snapshot()), tla, name, payout, expected, outcome)
    {
      var key := KeyOf(tla, name);
      if !outcome.Succeeded? || key !in subAccounts || subAccounts[key].owner != expected {
        return;
      }
      subAccounts := subAccounts[key := subAccounts[key].(payout := payout)];
    }

    // -------------------------------------------------------------- moves

    method OnSubAccountTransferred(f: Flight, outcome: Outcome)
      requires f.MoveFlight? && f.style.Plain?
      modifies `subAccounts, `byOwner
      ensures OnMoved(old(Snapshot()), f, outcome) == Quiet(Snapshot())
    {
      var key := KeyOf(f.tla, f.name);
      if !outcome.Succeeded? || key !in subAccounts || subAccounts[key].owner != f.from {
        return;
      }
      var moved := SubAccountReassign(key, f.to, if f.cause.RepointsPayout() then f.to else subAccounts[key].payout);
    }

    method CommitNftRotation(f: Flight, outcome: Outcome) returns (ok: bool, next: Option<Flight>)
      requires f.MoveFlight? && !f.style.Plain?
      modifies `subAccounts, `byOwner
      ensures Answers(OnMoved(old(Snapshot()), f, outcome), old(Snapshot()), Snapshot(), ok, next)
    {
      var key := KeyOf(f.tla, f.name);
      if !outcome.Succeeded? || key !in subAccounts {
        return false, None;
      }
      ok := SubAccountReassign(key, f.to, if f.cause.RepointsPayout() then f.to else subAccounts[key].payout);
      next := if f.style.NftCall? then Some(ReceiverFlight(f.tla, f.name, f.from, f.to)) else None;
    }

    method OnReturnResolved(tla: AccountId, name: string, to: AccountId, outcome: Outcome)
      modifies `subAccounts, `byOwner
      ensures Snapshot() == OnReturned(old(Snapshot()), tla, name, to, outcome)
    {
      if outcome.Succeeded? {
        var moved := SubAccountReassign(KeyOf(tla, name), to, to);
      }
    }

    method OnSubAccountRecovered(tla: AccountId, name: string, from: AccountId, to: AccountId, outcome: Outcome)
      modifies `subAccounts, `byOwner
      ensures Snapshot() == OnRecovered(old(Snapshot()), tla, name, from, to, outcome)
    {
      var key := KeyOf(tla, name);
      if !outcome.Succeeded? || key !in subAccounts || subAccounts[key].owner != from {
        return;
      }
      var moved := SubAccountReassign(key, to, to);
    }

    // -------------------------------------------------------------- retraction and reclaiming

    method ScheduleRetraction(x: Ctx, tla: AccountId, name: string) returns (flight: Option<Flight>)
      modifies `subAccounts
      ensures Answers(RetractBy(old(Snapshot()), x, tla, name), old(Snapshot()), Snapshot(), flight.Some?, flight)
    {
      var s := Snapshot();
      var key := KeyOf(tla, name);
      if x.deposit != 1 || Paused(s, x.now) || !ValidName(name) || !IsBusiness(s, tla) || !MayRetract(s, tla, x.caller) {
        return None;
      }
      if key !in subAccounts || subAccounts[key].retractionAt.Some? {
        return None;
      }
      subAccounts := subAccounts[key := subAccounts[key].(retractionAt := Some(x.now))];
      flight := Some(RetractFlight(tla, name, SatAdd(x.now, cfg.fees.retractionNotice)));
    }

    method OnRetractionScheduled(tla: AccountId, name: string, outcome: Outcome)
      modifies `subAccounts
      ensures Snapshot() == OnRetracted(old(Snapshot()), tla, name, outcome)
    {
      var key := KeyOf(tla, name);
      if !outcome.Succeeded? && key in subAccounts {
        subAccounts := subAccounts[key := subAccounts[key].(retractionAt := None)];
      }
    }

    method OnRetractionCanceled(tla: AccountId, name: string, outcome: Outcome)
      modifies `subAccounts
      ensures Snapshot() == OnRestored(old(Snapshot()), tla, name, outcome)
    {
      var key := KeyOf(tla, name);
      if outcome.Succeeded? && key in subAccounts {
        subAccounts := subAccounts[key := subAccounts[key].(retractionAt := None)];
      }
    }

    method ReclaimFinalize(x: Ctx, tla: AccountId, name: string) returns (flight: Option<Flight>)
      modifies `subAccounts, `reclaimPending
      ensures Answers(ReclaimBy(old(Snapshot()), x, tla, name), old(Snapshot()), Snapshot(), flight.Some?, flight)
    {
      var s := Snapshot();
      var key := KeyOf(tla, name);
      if Paused(s, x.now) || !ValidName(name) || key in reclaimPending || !ReclaimableNow(s, tla, key, x.now) {
        return None;
      }
      var sub := subAccounts[key];
      if x.now < sub.expiresAt {
        if sub.retractionAt.None? {
          subAccounts := subAccounts[key := sub.(retractionAt := Some(x.now))];
          return Some(NoticeFlight(tla, name, SatAdd(x.now, cfg.fees.retractionNotice)));
        }
        if x.now < SatAdd(sub.retractionAt.value, cfg.fees.retractionNotice) {
          return None;
        }
      }
      reclaimPending := reclaimPending + {key};
      flight := Some(if cfg.allowlist == {} then ReclaimFlight(tla, name) else ReclaimGate(tla, name));
    }

    method OnBalancesChecked(now: nat, tla: AccountId, name: string, outcome: Outcome) returns (next: Option<Flight>)
      modifies `reclaimPending
      ensures OnReclaimGate(old(Snapshot()), now, tla, name, outcome) == Done(Snapshot(), next)
    {
      var s := Snapshot();
      var key := KeyOf(tla, name);
      if !outcome.Succeeded? || !ReclaimableNow(s, tla, key, now) {
        reclaimPending := reclaimPending - {key};
        return None;
      }
      next := Some(ReclaimFlight(tla, name));
    }

    method OnReclaimFinalized(now: nat, tla: AccountId, name: string, outcome: Outcome)
      modifies `reclaimPending, `subAccounts, `byOwner, `byTla, `claimed, `subAccountCount, `businessSubCount, `parkedNames
      ensures Snapshot() == OnReclaimed(old(Snapshot()), now, tla, name, outcome)
    {
      var key := KeyOf(tla, name);
      reclaimPending := reclaimPending - {key};
      if !outcome.Succeeded? {
        return;
      }
      var removed := SubAccountRemove(key);
      if removed.None? {
        return;
      }
      ParkReclaimed(now, tla, key);
    }

    method ParkReclaimed(now: nat, tla: AccountId, key: Key)
      modifies `subAccountCount, `businessSubCount, `parkedNames
      ensures Snapshot() == Unbump(old(Snapshot()), tla).(subCount := SatSub(old(subAccountCount), 1), parked := old(parkedNames)[key := ParkedEntry(tla, now)])
    {
      BusinessCountDecrementIfBusiness(tla);
      subAccountCount := SatSub(subAccountCount, 1);
      parkedNames := parkedNames[key := ParkedEntry(tla, now)];
    }

    // -------------------------------------------------------------- pause and rate

    method Pause(x: Ctx) returns (ok: bool)
      modifies `paused, `pausedUntil
      ensures Answers(PauseBy(old(Snapshot()), x), old(Snapshot()), Snapshot(), ok, None)
    {
      if x.caller !in cfg.admins {
        return false;
      }
      paused := true;
      pausedUntil := SatAdd(x.now, MAX_AUTHORITY_HOLD_NS);
      ok := true;
    }

    method Unpause(x: Ctx) returns (ok: bool)
      modifies `paused, `pausedUntil, `unpausedAt
      ensures Answers(UnpauseBy(old(Snapshot()), x), old(Snapshot()), Snapshot(), ok, None)
    {
      if x.caller !in cfg.admins {
        return false;
      }
      paused, pausedUntil, unpausedAt := false, 0, x.now;
      ok := true;
    }

    method CommitRate(proposed: nat, now: nat)
      modifies `rate, `rateUpdatedAt, `rateSequence
      ensures Snapshot() == old(Snapshot()).(rate := Rates.Commit(old(Snapshot()).rate, proposed, now))
    {
      rate := proposed;
      rateUpdatedAt := now;
      rateSequence := SatAdd(rateSequence, 1);
    }

    method AdminSetInitialRate(x: Ctx, proposed: nat) returns (ok: bool)
      modifies `rate, `rateUpdatedAt, `rateSequence
      ensures Answers(InitialRateBy(old(Snapshot()), x, proposed), old(Snapshot()), Snapshot(), ok, None)
    {
      if x.deposit != 1 || x.caller != cfg.council || rate != 0 || proposed < cfg.fees.minRate || proposed > cfg.fees.maxRate {
        return false;
      }
      CommitRate(proposed, x.now);
      ok := true;
    }

    method SetNearUsdRate(x: Ctx, proposed: nat) returns (ok: bool)
      modifies `rate, `rateUpdatedAt, `rateSequence
      ensures Answers(OracleRateBy(old(Snapshot()), x, proposed), old(Snapshot()), Snapshot(), ok, None)
    {
      var f := cfg.fees;
      if x.caller != cfg.oracle || rate == 0 || x.now < SatAdd(rateUpdatedAt, f.rateCooldown) {
        return false;
      }
      if Pricing.RateWithinBounds(rate, proposed, f.maxRateMoveBps, f.minRate, f.maxRate) != Some(true) {
        return false;
      }
      CommitRate(proposed, x.now);
      ok := true;
    }
  }

  /** A method did what the state machine does: the same new state and chain, or nothing at all. */
  ghost predicate Answers(done: Option<Done>, before: Registry, after: Registry, ok: bool, flight: Option<Flight>) {
    if done.Some? then ok && after == done.value.state && flight == done.value.flight else !ok && after == before && flight.None?
  }
}
