/**
 The registry (`tla-registry`) as a state machine: calls made to it, chains of promises
 it starts, and the callbacks that settle those chains.
 */
module RegistryModel {
  import opened Common
  import opened RegistryTypes
  import opened NameTable
  import Lifecycle
  import Rates

  const MANUAL_ORDER_RELEASE_AFTER_NS: nat := 60 * 60 * NS_PER_SEC
  const MAX_ORDER_ID_LEN: nat := 128

  datatype Money = Money(revenue: nat, refunds: map<AccountId, nat>, totalRefunds: nat)

  datatype Order =
    | InFlight(fullName: Key, tla: AccountId, payer: AccountId, startedAt: nat)
    | Settled

  type Grant = (AccountId, AccountId)

  /** Paid orders, and per payment authority and top-level account its mint allowance and use. */
  datatype Orders = Orders(orders: map<string, Order>, allowance: map<Grant, nat>, used: map<Grant, nat>)

  datatype Config = Config(
    council: AccountId,
    treasury: AccountId,
    oracle: AccountId,
    admins: set<AccountId>,
    payAuthorities: set<AccountId>,
    recoveryAuthorities: set<AccountId>,
    venues: set<AccountId>,
    resale: set<AccountId>,
    allowlist: set<AccountId>,
    suspendedUntil: map<AccountId, nat>,
    businessCap: map<AccountId, nat>,
    terms: map<AccountId, Terms>,
    marketPaused: bool,
    grace: nat,
    leaseTerm: nat,
    fees: FeeConfig)

  datatype ParkedEntry = ParkedEntry(tla: AccountId, parkedAt: nat)

  datatype Registry = Registry(
    names: Table,
    money: Money,
    ord: Orders,
    tlas: map<AccountId, Tla>,
    businessCount: map<AccountId, nat>,
    subCount: nat,
    parked: map<Key, ParkedEntry>,
    reclaimPending: set<Key>,
    whitelist: set<Grant>,
    rate: RateBook,
    pause: PauseBook,
    cfg: Config)

  datatype Ctx = Ctx(caller: AccountId, deposit: nat, now: nat, available: nat)

  datatype Settlement = Settlement(
    tla: AccountId,
    name: string,
    owner: AccountId,
    payer: AccountId,
    rent: nat,
    attached: nat,
    orderId: Option<string>)

  datatype MintKind = Rental | PaidRental | BusinessClaim

  datatype Style = Plain | Nft | NftCall

  /** A chain of promises the registry is waiting for, with what its callback was given. */
  datatype Flight =
    | MintFlight(kind: MintKind, m: Settlement, payout: AccountId, expiresAt: nat, forwarded: nat)
    | ReRentGate(m: Settlement, payout: AccountId, expiresAt: nat)
    | ReRentFlight(m: Settlement, payout: AccountId, expiresAt: nat)
    | RenewFlight(tla: AccountId, name: string, expiresAt: nat, payer: AccountId, rent: nat)
    | PayoutFlight(tla: AccountId, name: string, payout: AccountId, expected: AccountId)
    | MoveGate(style: Style, tla: AccountId, name: string, from: AccountId, to: AccountId, cause: RotationCause)
    | MoveFlight(style: Style, tla: AccountId, name: string, from: AccountId, to: AccountId, cause: RotationCause)
    | ReceiverFlight(tla: AccountId, name: string, from: AccountId, to: AccountId)
    | ReturnFlight(tla: AccountId, name: string, from: AccountId, to: AccountId)
    | RecoverFlight(tla: AccountId, name: string, from: AccountId, to: AccountId)
    | RetractFlight(tla: AccountId, name: string, endsAt: nat)
    | NoticeFlight(tla: AccountId, name: string, endsAt: nat)
    | RestoreFlight(tla: AccountId, name: string, expiresAt: nat)
    | ReclaimGate(tla: AccountId, name: string)
    | ReclaimFlight(tla: AccountId, name: string)
    | RefundFlight(account: AccountId, amount: nat)

  /** What a chain reports back. A receiver that keeps the name, like a clear balance gate, succeeds. */
  datatype Outcome = Succeeded | Failed | CreationFailed

  datatype Done = Done(state: Registry, flight: Option<Flight>)

  datatype Call =
    | ActivateTla(tla: AccountId)
    | RenewTla(tla: AccountId)
    | Rent(tla: AccountId, name: string, owner: Option<AccountId>)
    | RentPaid(tla: AccountId, name: string, holder: AccountId, payout: AccountId, orderId: string)
    | ClaimName(tla: AccountId, name: string)
    | RenewSub(tla: AccountId, name: string)
    | SetPayout(tla: AccountId, name: string, payout: AccountId)
    | TransferSub(tla: AccountId, name: string, to: AccountId)
    | NftTransfer(token: Key, to: AccountId, approval: Option<nat>)
    | NftTransferCall(token: Key, to: AccountId, approval: Option<nat>)
    | Recover(tla: AccountId, name: string, to: AccountId, expected: AccountId)
    | Retract(tla: AccountId, name: string)
    | CancelRetraction(tla: AccountId, name: string)
    | Reclaim(tla: AccountId, name: string)
    | ClaimRefund
    | Withdraw(amount: nat)
    | SetTlaType(tla: AccountId, kind: TlaType, licensee: Option<AccountId>)
    | Bind(authority: AccountId, tla: AccountId, maxMints: nat)
    | Unbind(authority: AccountId, tla: AccountId)
    | ReleaseOrder(orderId: string)
    | ForcePark(tla: AccountId, name: string)
    | ReleasePark(tla: AccountId, name: string)
    | ClearReclaim(tla: AccountId, name: string)
    | Pause
    | Unpause
    | InitialRate(rate: nat)
    | OracleRate(rate: nat)
    | Govern(cfg: Config, tlas: map<AccountId, Tla>, whitelist: set<Grant>)

  function Init(council: AccountId, treasury: AccountId, oracle: AccountId, admins: set<AccountId>, grace: nat, leaseTerm: nat): Registry {
    Registry(Table(map[], map[], map[], {}), Money(0, map[], 0), Orders(map[], map[], map[]), map[], map[], 0, map[], {}, {},
             RateBook(0, 0, 0), PauseBook(false, 0, 0),
             Config(council, treasury, oracle, admins, {}, {}, {}, {}, {}, map[], map[], map[], false, grace, leaseTerm, Rates.DefaultFees()))
  }

  // ---------------------------------------------------------------- money

  function AddRefund(m: Money, account: AccountId, amount: nat): Money {
    var existing := if account in m.refunds then m.refunds[account] else 0;
    m.(refunds := m.refunds[account := existing + amount], totalRefunds := m.totalRefunds + amount)
  }

  function RefundExcess(m: Money, payer: AccountId, attached: nat, charged: nat): Money {
    if attached > charged then AddRefund(m, payer, attached - charged) else m
  }

  function Earn(m: Money, amount: nat): Money {
    m.(revenue := m.revenue + amount)
  }

  // ---------------------------------------------------------------- orders

  function Used(o: Orders, g: Grant): nat {
    if g in o.used then o.used[g] else 0
  }

  predicate MayMintPaid(s: Registry, caller: AccountId, tla: AccountId) {
    && caller in s.cfg.payAuthorities
    && (caller, tla) in s.ord.allowance
    && (s.ord.allowance[(caller, tla)] != 0 ==> Used(s.ord, (caller, tla)) < s.ord.allowance[(caller, tla)])
  }

  function Reserve(o: Orders, id: string, key: Key, tla: AccountId, payer: AccountId, now: nat): Orders {
    o.(orders := o.orders[id := InFlight(key, tla, payer, now)], used := o.used[(payer, tla) := Used(o, (payer, tla)) + 1])
  }

  function GiveBack(o: Orders, g: Grant): Orders {
    if Used(o, g) == 0 then o else o.(used := o.used[g := Used(o, g) - 1])
  }

  predicate InFlightFor(o: Orders, id: string, key: Key, payer: AccountId) {
    id in o.orders && o.orders[id].InFlight? && o.orders[id].fullName == key && o.orders[id].payer == payer
  }

  /** The mint failed: its order may be used again, unless the order has moved on since. */
  function Release(o: Orders, id: Option<string>, key: Key, payer: AccountId, tla: AccountId): Orders {
    if id.None? || !InFlightFor(o, id.value, key, payer) then o
    else GiveBack(o.(orders := o.orders - {id.value}), (payer, tla))
  }

  function Confirm(o: Orders, id: Option<string>, key: Key, payer: AccountId): Orders {
    if id.None? || !InFlightFor(o, id.value, key, payer) then o
    else o.(orders := o.orders[id.value := Settled])
  }

  // ---------------------------------------------------------------- business counts

  function Count(s: Registry, tla: AccountId): nat {
    if tla in s.businessCount then s.businessCount[tla] else 0
  }

  function Cap(s: Registry, tla: AccountId): nat {
    if tla in s.cfg.businessCap then s.cfg.businessCap[tla] else s.cfg.fees.businessMaxSubs
  }

  predicate IsBusiness(s: Registry, tla: AccountId) {
    tla in s.tlas && s.tlas[tla].kind.Business?
  }

  function Bump(s: Registry, tla: AccountId): Registry {
    s.(businessCount := s.businessCount[tla := Count(s, tla) + 1])
  }

  function Unbump(s: Registry, tla: AccountId): Registry {
    var count := Count(s, tla);
    if !IsBusiness(s, tla) || count == 0 then s
    else if count == 1 then s.(businessCount := s.businessCount - {tla})
    else s.(businessCount := s.businessCount[tla := count - 1])
  }

  // ---------------------------------------------------------------- gates

  predicate Paused(s: Registry, now: nat) {
    Lifecycle.EffectivePaused(s.pause, now)
  }

  function SuspendedUntil(s: Registry, tla: AccountId): nat {
    if tla in s.cfg.suspendedUntil then s.cfg.suspendedUntil[tla] else 0
  }

  function ClockAt(s: Registry, now: nat): Lifecycle.Clock {
    Lifecycle.ClockAt(s.pause, s.cfg.grace, now)
  }

  function Price(s: Registry, usd: nat, now: nat): Option<nat> {
    Rates.ConvertUsd(s.rate, s.cfg.fees, usd, now)
  }

  function TermsFor(s: Registry, tla: AccountId): Terms {
    if tla in s.cfg.terms then s.cfg.terms[tla] else Terms(None, None, None)
  }

  function BaseRent(length: nat, f: FeeConfig): nat {
    if length <= 5 then f.rentTier5
    else if length <= 8 then f.rentTier8
    else if length <= 10 then f.rentTier10
    else f.rentTier12
  }

  function NameRent(s: Registry, tla: AccountId, name: string): nat
    requires tla in s.tlas
  {
    var t := s.tlas[tla];
    if t.kind.Business? then
      var fee := TermsFor(s, tla).subFee;
      if fee.Some? then fee.value else s.cfg.fees.subFee
    else BaseRent(|name|, s.cfg.fees) * Multiplier(t.premium).0 / Multiplier(t.premium).1
  }

  function TlaRent(s: Registry, tla: AccountId): nat {
    var rent := TermsFor(s, tla).tlaRent;
    if rent.Some? then rent.value else BaseRent(|tla|, s.cfg.fees)
  }

  function AllocationFee(s: Registry, tla: AccountId): nat {
    var fee := TermsFor(s, tla).allocationFee;
    if fee.Some? then fee.value else s.cfg.fees.allocationFee
  }

  /** A top-level account takes new names; a business one only for its licensee. */
  predicate Accepting(s: Registry, tla: AccountId, forWhom: AccountId, now: nat) {
    && tla in s.tlas && Lifecycle.AcceptingRentals(s.tlas[tla], SuspendedUntil(s, tla), now)
    && (s.tlas[tla].kind.Business? ==> s.tlas[tla].licensee == Some(forWhom))
  }

  predicate WithinCap(s: Registry, tla: AccountId) {
    IsBusiness(s, tla) ==> Count(s, tla) < Cap(s, tla)
  }

  predicate LicenseeGoverned(s: Registry, tla: AccountId) {
    IsBusiness(s, tla) && tla !in s.cfg.resale
  }

  predicate MayRetract(s: Registry, tla: AccountId, caller: AccountId) {
    if tla in s.cfg.resale then caller == s.cfg.council || caller in s.cfg.admins
    else tla in s.tlas && s.tlas[tla].licensee == Some(caller)
  }

  function SubStatus(s: Registry, key: Key, tla: AccountId, now: nat): Status
    requires key in s.names.subs && tla in s.tlas
  {
    Lifecycle.SubLifecycle(s.names.subs[key], s.tlas[tla], s.cfg.fees.retractionNotice, ClockAt(s, now), SuspendedUntil(s, tla), now)
  }

  predicate ReclaimableNow(s: Registry, tla: AccountId, key: Key, now: nat) {
    && key in s.names.subs && s.names.subs[key].tla == tla && tla in s.tlas
    && SubStatus(s, key, tla, now).Reclaimable?
  }

  predicate Sellable(s: Registry, key: Key, tla: AccountId, now: nat) {
    && key !in s.reclaimPending
    && key in s.names.subs && s.names.subs[key].tla == tla
    && s.names.subs[key].retractionAt.None?
    && tla in s.tlas && !LicenseeGoverned(s, tla)
    && SubStatus(s, key, tla, now) == Status.Active
  }

  predicate Transferable(s: Registry, x: Ctx, tla: AccountId, name: string, to: AccountId) {
    var key := KeyOf(tla, name);
    && x.deposit == 1 && ValidName(name) && key !in s.reclaimPending
    && key in s.names.subs && s.names.subs[key].tla == tla
    && x.caller == s.names.subs[key].owner && to != x.caller && to != key
    && (x.caller !in s.cfg.venues ==>
          && !Paused(s, x.now) && Sellable(s, key, tla, x.now)
          && (to in s.cfg.venues || to !in s.names.subs))
  }

  // ---------------------------------------------------------------- starting a lease

  /** Writes the provisional entry; the lease ends one term from now. */
  function OpenLease(s: Registry, now: nat, tla: AccountId, name: string, owner: AccountId, payout: AccountId): Registry {
    s.(names := Insert(s.names, KeyOf(tla, name), Sub(owner, tla, payout, now, SatAdd(now, s.cfg.leaseTerm), None)))
  }

  function ReRentStart(s: Registry, m: Settlement, payout: AccountId, expiresAt: nat): Done {
    Done(s, Some(if s.cfg.allowlist == {} then ReRentFlight(m, payout, expiresAt) else ReRentGate(m, payout, expiresAt)))
  }

  /** The business count moves first, then the entry is written, then the chain leaves. */
  function StartMint(s: Registry, now: nat, kind: MintKind, m: Settlement, payout: AccountId, reRent: bool): Done {
    var counted := if IsBusiness(s, m.tla) then Bump(s, m.tla) else s;
    var entered := OpenLease(counted, now, m.tla, m.name, m.owner, payout);
    var expiresAt := SatAdd(now, s.cfg.leaseTerm);
    if reRent then ReRentStart(entered, m, payout, expiresAt)
    else Done(entered, Some(MintFlight(kind, m, payout, expiresAt, s.cfg.fees.creationDeposit)))
  }

  function RentName(s: Registry, x: Ctx, tla: AccountId, name: string, owner: Option<AccountId>): Option<Done> {
    var key := KeyOf(tla, name);
    var reRent := key in s.parked;
    var holder := if owner.Some? then owner.value else x.caller;
    if Paused(s, x.now) || !MintableName(tla, name) || key in s.names.subs then None
    else if reRent && Bucket(s.names.byOwner, key) != [] then None
    else if holder != x.caller && x.caller !in s.cfg.payAuthorities then None
    else if !Accepting(s, tla, holder, x.now) then None
    else
      var rent := Price(s, NameRent(s, tla, name), x.now);
      if rent.None? || x.deposit < rent.value + (if reRent then 0 else s.cfg.fees.creationDeposit) || !WithinCap(s, tla) then None
      else
        var m := Settlement(tla, name, holder, x.caller, rent.value, x.deposit, None);
        Some(StartMint(s, x.now, Rental, m, holder, reRent))
  }

  predicate PaidRentAllowed(s: Registry, x: Ctx, tla: AccountId, name: string, payout: AccountId, id: string) {
    var key := KeyOf(tla, name);
    && !Paused(s, x.now) && MayMintPaid(s, x.caller, tla) && MintableName(tla, name)
    && 0 < |id| <= MAX_ORDER_ID_LEN && id !in s.ord.orders
    && key !in s.names.subs && payout != key && Accepting(s, tla, payout, x.now)
    && x.deposit >= (if key in s.parked then 0 else s.cfg.fees.creationDeposit)
    && WithinCap(s, tla)
  }

  function RentNamePaid(s: Registry, x: Ctx, tla: AccountId, name: string, holder: AccountId, payout: AccountId, id: string): Option<Done> {
    if !PaidRentAllowed(s, x, tla, name, payout, id) then None
    else
      var key := KeyOf(tla, name);
      var m := Settlement(tla, name, holder, x.caller, 0, x.deposit, Some(id));
      Some(StartMint(s.(ord := Reserve(s.ord, id, key, tla, x.caller, x.now)), x.now, PaidRental, m, payout, key in s.parked))
  }

  predicate ClaimAllowed(s: Registry, x: Ctx, tla: AccountId, name: string) {
    var key := KeyOf(tla, name);
    && !Paused(s, x.now) && MintableName(tla, name) && (tla, x.caller) in s.whitelist
    && IsBusiness(s, tla) && Lifecycle.AcceptingRentals(s.tlas[tla], SuspendedUntil(s, tla), x.now)
    && key !in s.names.subs && key !in s.parked && x.deposit >= s.cfg.fees.creationDeposit && WithinCap(s, tla)
  }

  function Marked(s: Registry, tla: AccountId, name: string, claimer: AccountId): Registry {
    s.(whitelist := s.whitelist - {(tla, claimer)}, names := s.names.(claimed := s.names.claimed + {KeyOf(tla, name)}))
  }

  function ClaimBusinessName(s: Registry, x: Ctx, tla: AccountId, name: string): Option<Done> {
    if !ClaimAllowed(s, x, tla, name) then None
    else
      var m := Settlement(tla, name, x.caller, x.caller, 0, x.deposit, None);
      Some(StartMint(Marked(s, tla, name, x.caller), x.now, BusinessClaim, m, x.caller, false))
  }

  // ---------------------------------------------------------------- other calls

  function ActivateTlaBy(s: Registry, x: Ctx, tla: AccountId): Option<Done> {
    var fee := Price(s, AllocationFee(s, tla) + TlaRent(s, tla), x.now);
    if Paused(s, x.now) || fee.None? || x.deposit < fee.value || tla !in s.tlas then None
    else
      var t := s.tlas[tla];
      if !t.status.TlaRegistered? || !t.kind.Business? || t.licensee != Some(x.caller) then None
      else
        var t' := t.(status := TlaActive, activatedAt := x.now, expiresAt := SatAdd(x.now, ONE_YEAR_NS));
        Some(Done(s.(tlas := s.tlas[tla := t'], money := RefundExcess(Earn(s.money, fee.value), x.caller, x.deposit, fee.value)), None))
  }

  function RenewTlaBy(s: Registry, x: Ctx, tla: AccountId): Option<Done> {
    var rent := Price(s, TlaRent(s, tla), x.now);
    if Paused(s, x.now) || rent.None? || tla !in s.tlas then None
    else
      var t := s.tlas[tla];
      if !t.status.TlaActive? || x.now >= SatAdd(t.expiresAt, s.cfg.grace) then None
      else if !(if t.kind.Business? then t.licensee == Some(x.caller) else x.caller in s.cfg.admins) then None
      else if x.deposit < rent.value then None
      else
        var t' := t.(expiresAt := SatAdd(Max(x.now, t.expiresAt), ONE_YEAR_NS));
        Some(Done(s.(tlas := s.tlas[tla := t'], money := RefundExcess(Earn(s.money, rent.value), x.caller, x.deposit, rent.value)), None))
  }

  function RenewSubBy(s: Registry, x: Ctx, tla: AccountId, name: string): Option<Done> {
    var key := KeyOf(tla, name);
    if !ValidName(name) || key !in s.names.subs || tla !in s.tlas then None
    else if !Lifecycle.Renewable(s.names.subs[key], s.tlas[tla], ClockAt(s, x.now), SuspendedUntil(s, tla), x.now) then None
    else
      var rent := Price(s, NameRent(s, tla, name), x.now);
      if rent.None? || x.deposit < rent.value then None
      else
        var until := SatAdd(Max(x.now, s.names.subs[key].expiresAt), s.cfg.leaseTerm);
        Some(Done(s.(money := RefundExcess(s.money, x.caller, x.deposit, rent.value)),
                  Some(RenewFlight(tla, name, until, x.caller, rent.value))))
  }

  function SetPayoutBy(s: Registry, x: Ctx, tla: AccountId, name: string, payout: AccountId): Option<Done> {
    var key := KeyOf(tla, name);
    if x.deposit != 1 || Paused(s, x.now) || !ValidName(name) || payout == key || key !in s.names.subs || tla !in s.tlas then None
    else if !(if LicenseeGoverned(s, tla) && key !in s.names.claimed then s.tlas[tla].licensee == Some(x.caller)
              else x.caller == s.names.subs[key].owner) then None
    else Some(Done(s, Some(PayoutFlight(tla, name, payout, s.names.subs[key].owner))))
  }

  function CauseFor(s: Registry, to: AccountId): RotationCause {
    if to in s.cfg.venues then Deposit else Transfer
  }

  /** Names leaving a venue skip the balance gate, except when handed to a receiver contract. */
  function StartMove(s: Registry, style: Style, tla: AccountId, name: string, from: AccountId, to: AccountId): Done {
    var direct := s.cfg.allowlist == {} || (!style.NftCall? && from in s.cfg.venues);
    Done(s, Some(if direct then MoveFlight(style, tla, name, from, to, CauseFor(s, to))
                 else MoveGate(style, tla, name, from, to, CauseFor(s, to))))
  }

  function TransferBy(s: Registry, x: Ctx, style: Style, tla: AccountId, name: string, to: AccountId): Option<Done> {
    if Transferable(s, x, tla, name, to) then Some(StartMove(s, style, tla, name, x.caller, to)) else None
  }

  function NftTransferBy(s: Registry, x: Ctx, style: Style, token: Key, to: AccountId, approval: Option<nat>): Option<Done> {
    if approval.Some? || token !in s.names.subs then None
    else
      var tla := s.names.subs[token].tla;
      var cut := |token| - |tla| - 1;
      if cut < 0 || token[cut..] != "." + tla then None else TransferBy(s, x, style, tla, token[..cut], to)
  }

  function RecoverBy(s: Registry, x: Ctx, tla: AccountId, name: string, to: AccountId, expected: AccountId): Option<Done> {
    var key := KeyOf(tla, name);
    if x.deposit != 1 || x.caller !in s.cfg.recoveryAuthorities || Paused(s, x.now) || !ValidName(name) then None
    else if key in s.reclaimPending || key !in s.names.subs then None
    else
      var from := s.names.subs[key].owner;
      if from != expected || to == from || to == key || to in s.names.subs then None
      else Some(Done(s, Some(RecoverFlight(tla, name, from, to))))
  }

  function WithRetraction(s: Registry, key: Key, at: Option<nat>): Registry
    requires key in s.names.subs
  {
    s.(names := s.names.(subs := s.names.subs[key := s.names.subs[key].(retractionAt := at)]))
  }

  function RetractBy(s: Registry, x: Ctx, tla: AccountId, name: string): Option<Done> {
    var key := KeyOf(tla, name);
    if x.deposit != 1 || Paused(s, x.now) || !ValidName(name) || !IsBusiness(s, tla) || !MayRetract(s, tla, x.caller) then None
    else if key !in s.names.subs || s.names.subs[key].retractionAt.Some? then None
    else Some(Done(WithRetraction(s, key, Some(x.now)), Some(RetractFlight(tla, name, SatAdd(x.now, s.cfg.fees.retractionNotice)))))
  }

  function CancelRetractionBy(s: Registry, x: Ctx, tla: AccountId, name: string): Option<Done> {
    var key := KeyOf(tla, name);
    if x.deposit != 1 || Paused(s, x.now) || !ValidName(name) || tla !in s.tlas || !MayRetract(s, tla, x.caller) then None
    else if key !in s.names.subs || s.names.subs[key].retractionAt.None? then None
    else if x.now >= SatAdd(s.names.subs[key].retractionAt.value, s.cfg.fees.retractionNotice) then None
    else Some(Done(s, Some(RestoreFlight(tla, name, s.names.subs[key].expiresAt))))
  }

  /** A reclaim of a name whose term is still running first gives notice; otherwise it parks the wallet. */
  function ReclaimBy(s: Registry, x: Ctx, tla: AccountId, name: string): Option<Done> {
    var key := KeyOf(tla, name);
    if Paused(s, x.now) || !ValidName(name) || key in s.reclaimPending || !ReclaimableNow(s, tla, key, x.now) then None
    else
      var sub := s.names.subs[key];
      var notice := s.cfg.fees.retractionNotice;
      if x.now < sub.expiresAt && sub.retractionAt.None? then
        Some(Done(WithRetraction(s, key, Some(x.now)), Some(NoticeFlight(tla, name, SatAdd(x.now, notice)))))
      else if x.now < sub.expiresAt && x.now < SatAdd(sub.retractionAt.value, notice) then None
      else
        Some(Done(s.(reclaimPending := s.reclaimPending + {key}),
                  Some(if s.cfg.allowlist == {} then ReclaimFlight(tla, name) else ReclaimGate(tla, name))))
  }

  function ClaimRefundBy(s: Registry, x: Ctx): Option<Done> {
    var amount := if x.caller in s.money.refunds then s.money.refunds[x.caller] else 0;
    if amount == 0 || amount > x.available then None
    else Some(Done(s.(money := s.money.(refunds := s.money.refunds - {x.caller}, totalRefunds := SatSub(s.money.totalRefunds, amount))),
                   Some(RefundFlight(x.caller, amount))))
  }

  function WithdrawBy(s: Registry, x: Ctx, amount: nat): Option<Done> {
    if x.deposit != 1 || (x.caller != s.cfg.treasury && x.caller != s.cfg.council) then None
    else if amount == 0 || amount > s.money.revenue || s.money.totalRefunds + amount > x.available then None
    else Some(Done(s.(money := AddRefund(s.money.(revenue := s.money.revenue - amount), s.cfg.treasury, amount)), None))
  }

  predicate ByCouncil(s: Registry, x: Ctx) {
    x.deposit == 1 && x.caller == s.cfg.council
  }

  predicate ByAdmin(s: Registry, x: Ctx) {
    x.deposit == 1 && x.caller in s.cfg.admins
  }

  function ReleaseOrderBy(s: Registry, x: Ctx, id: string): Option<Done> {
    if !ByAdmin(s, x) || id !in s.ord.orders || s.ord.orders[id].Settled? then None
    else
      var order := s.ord.orders[id];
      if SatSub(x.now, order.startedAt) < MANUAL_ORDER_RELEASE_AFTER_NS then None
      else Some(Done(s.(ord := GiveBack(s.ord.(orders := s.ord.orders - {id}), (order.payer, order.tla))), None))
  }

  /**
   Governance beyond the calls above, any of it at once: roles, lists, terms, fees and the
   registration, activation and suspension of top-level accounts.
   */
  predicate Governable(s: Registry, x: Ctx, cfg: Config, tlas: map<AccountId, Tla>) {
    && (x.caller == s.cfg.council || x.caller in s.cfg.admins)
    && cfg.grace == s.cfg.grace
    && (cfg.fees == s.cfg.fees || Rates.FeesAllowed(cfg.fees, s.rate.rate))
    && (forall t :: t in s.tlas ==> t in tlas && tlas[t].kind == s.tlas[t].kind)
  }

  function Quiet(s: Registry): Option<Done> {
    Some(Done(s, None))
  }

  function PauseBy(s: Registry, x: Ctx): Option<Done> {
    if x.caller !in s.cfg.admins then None else Quiet(s.(pause := Lifecycle.Paused(s.pause, x.now)))
  }

  function UnpauseBy(s: Registry, x: Ctx): Option<Done> {
    if x.caller !in s.cfg.admins then None else Quiet(s.(pause := Lifecycle.Unpaused(x.now)))
  }

  function InitialRateBy(s: Registry, x: Ctx, rate: nat): Option<Done> {
    var book := Rates.SetInitialRate(s.rate, s.cfg.fees, rate, x.now);
    if !ByCouncil(s, x) || book.None? then None else Quiet(s.(rate := book.value))
  }

  function OracleRateBy(s: Registry, x: Ctx, rate: nat): Option<Done> {
    var book := Rates.SetRate(s.rate, s.cfg.fees, rate, x.now);
    if x.caller != s.cfg.oracle || book.None? then None else Quiet(s.(rate := book.value))
  }

  function Apply(s: Registry, x: Ctx, call: Call): Option<Done> {
    match call
    case ActivateTla(tla) => ActivateTlaBy(s, x, tla)
    case RenewTla(tla) => RenewTlaBy(s, x, tla)
    case Rent(tla, name, owner) => RentName(s, x, tla, name, owner)
    case RentPaid(tla, name, holder, payout, id) => RentNamePaid(s, x, tla, name, holder, payout, id)
    case ClaimName(tla, name) => ClaimBusinessName(s, x, tla, name)
    case RenewSub(tla, name) => RenewSubBy(s, x, tla, name)
    case SetPayout(tla, name, payout) => SetPayoutBy(s, x, tla, name, payout)
    case TransferSub(tla, name, to) => TransferBy(s, x, Plain, tla, name, to)
    case NftTransfer(token, to, approval) => NftTransferBy(s, x, Nft, token, to, approval)
    case NftTransferCall(token, to, approval) =>
      if s.cfg.marketPaused then None else NftTransferBy(s, x, NftCall, token, to, approval)
    case Recover(tla, name, to, expected) => RecoverBy(s, x, tla, name, to, expected)
    case Retract(tla, name) => RetractBy(s, x, tla, name)
    case CancelRetraction(tla, name) => CancelRetractionBy(s, x, tla, name)
    case Reclaim(tla, name) => ReclaimBy(s, x, tla, name)
    case ClaimRefund => ClaimRefundBy(s, x)
    case Withdraw(amount) => WithdrawBy(s, x, amount)
    case SetTlaType(tla, kind, licensee) =>
      if !ByCouncil(s, x) || (kind.Business? && licensee.None?) || tla !in s.tlas then None
      else Quiet(s.(tlas := s.tlas[tla := s.tlas[tla].(kind := kind, licensee := licensee)]))
    case Bind(authority, tla, maxMints) =>
      if !ByCouncil(s, x) || authority !in s.cfg.payAuthorities || tla !in s.tlas || maxMints == 0 then None
      else Quiet(s.(ord := s.ord.(allowance := s.ord.allowance[(authority, tla) := maxMints])))
    case Unbind(authority, tla) =>
      if !ByCouncil(s, x) then None
      else Quiet(s.(ord := s.ord.(allowance := s.ord.allowance - {(authority, tla)}, used := s.ord.used - {(authority, tla)})))
    case ReleaseOrder(id) => ReleaseOrderBy(s, x, id)
    case ForcePark(tla, name) =>
      var key := KeyOf(tla, name);
      if !ByAdmin(s, x) || !ValidName(name) || tla !in s.tlas || key in s.names.subs || key in s.parked then None
      else Quiet(s.(parked := s.parked[key := ParkedEntry(tla, x.now)]))
    case ReleasePark(tla, name) =>
      var key := KeyOf(tla, name);
      if !ByAdmin(s, x) || key in s.names.subs || key !in s.parked then None
      else Quiet(s.(parked := s.parked - {key}))
    case ClearReclaim(tla, name) =>
      var key := KeyOf(tla, name);
      if !ByAdmin(s, x) || key !in s.reclaimPending || !ReclaimableNow(s, tla, key, x.now) then None
      else Quiet(s.(reclaimPending := s.reclaimPending - {key}))
    case Pause => PauseBy(s, x)
    case Unpause => UnpauseBy(s, x)
    case InitialRate(rate) => InitialRateBy(s, x, rate)
    case OracleRate(rate) => OracleRateBy(s, x, rate)
    case Govern(cfg, tlas, whitelist) =>
      if !Governable(s, x, cfg, tlas) then None else Quiet(s.(cfg := cfg, tlas := tlas, whitelist := whitelist))
  }

  // ---------------------------------------------------------------- callbacks

  /** The provisional entry is withdrawn and the whole deposit credited, if the entry is still there. */
  function SettleFailed(s: Registry, m: Settlement): Registry {
    var key := KeyOf(m.tla, m.name);
    if key !in s.names.subs then s
    else Unbump(s.(names := Remove(s.names, key)), m.tla).(money := AddRefund(s.money, m.payer, m.attached))
  }

  /** As a failed mint, but the wallet may exist: its name is parked. */
  function SettleStranded(s: Registry, m: Settlement, now: nat): Registry {
    var key := KeyOf(m.tla, m.name);
    if key !in s.names.subs then s else SettleFailed(s, m).(parked := s.parked[key := ParkedEntry(m.tla, now)])
  }

  function WithRelease(s: Registry, m: Settlement): Registry {
    s.(ord := Release(s.ord, m.orderId, KeyOf(m.tla, m.name), m.payer, m.tla))
  }

  function WithConfirm(s: Registry, m: Settlement): Registry {
    s.(ord := Confirm(s.ord, m.orderId, KeyOf(m.tla, m.name), m.payer))
  }

  /** A mint that succeeded: rent becomes revenue, the rest above the creation deposit a refund. */
  function MintActive(s: Registry, m: Settlement): Option<Registry> {
    if KeyOf(m.tla, m.name) !in s.names.subs then None
    else Some(WithConfirm(s, m).(subCount := s.subCount + 1,
      money := RefundExcess(Earn(s.money, m.rent), m.payer, m.attached, m.rent + s.cfg.fees.creationDeposit)))
  }

  function OnMinted(s: Registry, now: nat, kind: MintKind, m: Settlement, outcome: Outcome): Option<Registry> {
    match outcome
    case Succeeded => MintActive(s, m)
    case CreationFailed =>
      var s' := if kind.BusinessClaim? then s.(whitelist := s.whitelist + {(m.tla, m.owner)}) else s;
      Some(SettleFailed(WithRelease(s', m), m))
    case Failed => Some(SettleStranded(WithRelease(s, m), m, now))
  }

  function ReRentActive(s: Registry, m: Settlement): Registry {
    WithConfirm(s, m).(parked := s.parked - {KeyOf(m.tla, m.name)}, subCount := s.subCount + 1,
      money := RefundExcess(Earn(s.money, m.rent), m.payer, m.attached, m.rent))
  }

  function OnReRented(s: Registry, m: Settlement, outcome: Outcome): Option<Registry> {
    var key := KeyOf(m.tla, m.name);
    if !outcome.Succeeded? then Some(SettleFailed(WithRelease(s, m), m))
    else if key !in s.names.subs then None
    else Some(ReRentActive(s, m))
  }

  function OnRenewed(s: Registry, tla: AccountId, name: string, expiresAt: nat, payer: AccountId, rent: nat, outcome: Outcome): Registry {
    var key := KeyOf(tla, name);
    if !outcome.Succeeded? || key !in s.names.subs then s.(money := AddRefund(s.money, payer, rent))
    else s.(names := s.names.(subs := s.names.subs[key := s.names.subs[key].(expiresAt := expiresAt)]), money := Earn(s.money, rent))
  }

  function OnPayoutSet(s: Registry, tla: AccountId, name: string, payout: AccountId, expected: AccountId, outcome: Outcome): Registry {
    var key := KeyOf(tla, name);
    if !outcome.Succeeded? || key !in s.names.subs || s.names.subs[key].owner != expected then s
    else s.(names := s.names.(subs := s.names.subs[key := s.names.subs[key].(payout := payout)]))
  }

  function Moved(s: Registry, key: Key, to: AccountId, cause: RotationCause): Registry
    requires key in s.names.subs
  {
    s.(names := Reassign(s.names, key, to, if cause.RepointsPayout() then to else s.names.subs[key].payout))
  }

  /** A plain transfer settles quietly; the token forms fail loudly when the wallet did not move. */
  function OnMoved(s: Registry, f: Flight, outcome: Outcome): Option<Done>
    requires f.MoveFlight?
  {
    var key := KeyOf(f.tla, f.name);
    if f.style.Plain? then
      if !outcome.Succeeded? || key !in s.names.subs || s.names.subs[key].owner != f.from then Quiet(s)
      else Quiet(Moved(s, key, f.to, f.cause))
    else if !outcome.Succeeded? || key !in s.names.subs then None
    else Some(Done(Moved(s, key, f.to, f.cause), if f.style.NftCall? then Some(ReceiverFlight(f.tla, f.name, f.from, f.to)) else None))
  }

  /** The receiver failed or handed the name back: it returns, if the receiver still owns it. */
  function OnReceived(s: Registry, tla: AccountId, name: string, from: AccountId, to: AccountId, outcome: Outcome): Done {
    var key := KeyOf(tla, name);
    if outcome.Succeeded? || key !in s.names.subs || s.names.subs[key].owner != to then Done(s, None)
    else Done(s, Some(ReturnFlight(tla, name, to, from)))
  }

  function OnReturned(s: Registry, tla: AccountId, name: string, to: AccountId, outcome: Outcome): Registry {
    var key := KeyOf(tla, name);
    if !outcome.Succeeded? || key !in s.names.subs then s else s.(names := Reassign(s.names, key, to, to))
  }

  function OnRecovered(s: Registry, tla: AccountId, name: string, from: AccountId, to: AccountId, outcome: Outcome): Registry {
    var key := KeyOf(tla, name);
    if !outcome.Succeeded? || key !in s.names.subs || s.names.subs[key].owner != from then s
    else s.(names := Reassign(s.names, key, to, to))
  }

  function OnRetracted(s: Registry, tla: AccountId, name: string, outcome: Outcome): Registry {
    var key := KeyOf(tla, name);
    if outcome.Succeeded? || key !in s.names.subs then s else WithRetraction(s, key, None)
  }

  function OnRestored(s: Registry, tla: AccountId, name: string, outcome: Outcome): Registry {
    var key := KeyOf(tla, name);
    if !outcome.Succeeded? || key !in s.names.subs then s else WithRetraction(s, key, None)
  }

  function OnReclaimGate(s: Registry, now: nat, tla: AccountId, name: string, outcome: Outcome): Done {
    var key := KeyOf(tla, name);
    if !outcome.Succeeded? || !ReclaimableNow(s, tla, key, now) then Done(s.(reclaimPending := s.reclaimPending - {key}), None)
    else Done(s, Some(ReclaimFlight(tla, name)))
  }

  function OnReclaimed(s: Registry, now: nat, tla: AccountId, name: string, outcome: Outcome): Registry {
    var key := KeyOf(tla, name);
    var s' := s.(reclaimPending := s.reclaimPending - {key});
    if !outcome.Succeeded? || key !in s.names.subs then s'
    else Unbump(s'.(names := Remove(s.names, key)), tla).(subCount := SatSub(s.subCount, 1), parked := s.parked[key := ParkedEntry(tla, now)])
  }

  function Land(r: Option<Registry>): Option<Done> {
    if r.None? then None else Quiet(r.value)
  }

  /** The callback of a chain; none when it panics, which undoes it. */
  function Settle(s: Registry, now: nat, f: Flight, outcome: Outcome): Option<Done> {
    match f
    case MintFlight(kind, m, _, _, _) => Land(OnMinted(s, now, kind, m, outcome))
    case ReRentGate(m, payout, until) =>
      if outcome.Succeeded? then Some(Done(s, Some(ReRentFlight(m, payout, until)))) else Quiet(SettleFailed(s, m))
    case ReRentFlight(m, _, _) => Land(OnReRented(s, m, outcome))
    case RenewFlight(tla, name, until, payer, rent) => Quiet(OnRenewed(s, tla, name, until, payer, rent, outcome))
    case PayoutFlight(tla, name, payout, expected) => Quiet(OnPayoutSet(s, tla, name, payout, expected, outcome))
    case MoveGate(style, tla, name, from, to, cause) =>
      if outcome.Succeeded? then Some(Done(s, Some(MoveFlight(style, tla, name, from, to, cause)))) else None
    case MoveFlight(_, _, _, _, _, _) => OnMoved(s, f, outcome)
    case ReceiverFlight(tla, name, from, to) => Some(OnReceived(s, tla, name, from, to, outcome))
    case ReturnFlight(tla, name, _, to) => Quiet(OnReturned(s, tla, name, to, outcome))
    case RecoverFlight(tla, name, from, to) => Quiet(OnRecovered(s, tla, name, from, to, outcome))
    case RetractFlight(tla, name, _) => Quiet(OnRetracted(s, tla, name, outcome))
    case NoticeFlight(_, _, _) => Quiet(s)
    case RestoreFlight(tla, name, _) => Quiet(OnRestored(s, tla, name, outcome))
    case ReclaimGate(tla, name) => Some(OnReclaimGate(s, now, tla, name, outcome))
    case ReclaimFlight(tla, name) => Quiet(OnReclaimed(s, now, tla, name, outcome))
    case RefundFlight(account, amount) =>
      if outcome.Succeeded? then Quiet(s) else Quiet(s.(money := AddRefund(s.money, account, amount)))
  }

  // ---------------------------------------------------------------- the network

  /** The registry together with the chains it waits for. */
  datatype Net = Net(reg: Registry, flights: seq<Flight>)

  datatype Step =
    | Request(x: Ctx, call: Call)
    | Deliver(now: nat, which: nat, outcome: Outcome)

  function Without<T>(xs: seq<T>, i: nat): seq<T>
    requires i < |xs|
  {
    xs[..i] + xs[i + 1..]
  }

  function Launch(fs: seq<Flight>, f: Option<Flight>): seq<Flight> {
    if f.None? then fs else fs + [f.value]
  }

  /** Any call by anyone, or any outstanding chain reporting any outcome; a panic changes nothing but ends the chain. */
  function Next(w: Net, t: Step): Net {
    match t
    case Request(x, call) =>
      var done := Apply(w.reg, x, call);
      if done.None? then w else Net(done.value.state, Launch(w.flights, done.value.flight))
    case Deliver(now, i, outcome) =>
      if i >= |w.flights| then w
      else
        var done := Settle(w.reg, now, w.flights[i], outcome);
        if done.None? then w.(flights := Without(w.flights, i))
        else Net(done.value.state, Launch(Without(w.flights, i), done.value.flight))
  }

  ghost predicate Run(start: Net, ws: seq<Net>, steps: seq<Step>) {
    && |ws| == |steps| + 1 && ws[0] == start
    && forall i :: 0 <= i < |steps| ==> ws[i + 1] == Next(ws[i], steps[i])
  }
}
