/**
 The tenant wallet (`hos-wallet`) as values: its state, the calls it answers and what each
 call does. A call that panics reverts, so `Apply` answers `None` and the state stays as it was.
 */
module WalletModel {
  import opened Common

  const ONE_YOCTO: nat := 1
  const MIN_TIMEOUT_SECS: nat := 60
  const MAX_TIMEOUT_SECS: nat := 2_592_000
  const AUTHORITY_FREEZE_COOLDOWN_NS: nat := MAX_AUTHORITY_HOLD_NS
  const REVERT_WINDOW_NS: nat := 5 * 60 * NS_PER_SEC

  datatype FreezeState = Unfrozen | SelfFrozen | AuthorityFrozen

  datatype TokenBudget = TokenBudget(budget: nat, spent: nat)

  datatype SpendGrant = SpendGrant(
    receivers: set<AccountId>,
    budget: nat,
    spent: nat,
    tokens: map<AccountId, TokenBudget>,
    items: map<AccountId, set<string>>,
    expiresAt: nat)

  datatype TokenAllowance = TokenAllowance(token: AccountId, budget: nat)

  datatype ItemAllowance = ItemAllowance(collection: AccountId, tokenIds: seq<string>)

  datatype Wallet = Wallet(
    account: AccountId,
    authority: AccountId,
    owner: AccountId,
    collection: AccountId,
    payout: AccountId,
    extensions: set<AccountId>,
    leaseUntil: nat,
    state: OperatingState,
    frozen: FreezeState,
    authorityFreezeUntil: nat,
    grants: map<AccountId, SpendGrant>,
    revertTo: Option<AccountId>,
    revertUntil: nat,
    rotationSeq: nat)

  /** What the host tells the contract about one call. `reserve` tracks live storage usage. */
  datatype Ctx = Ctx(caller: AccountId, deposit: nat, now: nat, balance: nat, reserve: nat)

  /** JSON arguments of a token call, as far as the wallet can read them. */
  datatype CallArgs =
    | FtTransferArgs(receiver: AccountId, amount: nat)
    | NftTransferArgs(receiver: AccountId, tokenId: string, approval: Option<nat>)
    | Unreadable

  datatype Action =
    | Transfer(amount: nat)
    | FunctionCall(name: string, args: CallArgs, deposit: nat)
    | OtherAction(attached: nat)

  datatype Promise = Promise(receiver: AccountId, actions: seq<Action>, refundTo: Option<AccountId>)

  datatype WalletOp =
    | SetSignatureMode
    | AddExtension(added: AccountId)
    | RemoveExtension(removed: AccountId)

  datatype Request = Request(internal: seq<WalletOp>, external: seq<Promise>)

  datatype Call =
    | GrantSpend(extension: AccountId, receivers: seq<AccountId>, budget: nat,
                 tokens: seq<TokenAllowance>, items: seq<ItemAllowance>, expiresAt: nat)
    | RevokeSpend(revoked: AccountId)
    | SetPayoutAccount(payout: AccountId, expectedOwner: AccountId)
    | SetLease(until: nat, state: OperatingState)
    | RetractLease(shorter: nat)
    | TransferOwnership(to: Option<AccountId>, cause: RotationCause, askedBy: Option<AccountId>)
    | ReRent(tenant: AccountId, tenantPayout: AccountId, newUntil: nat)
    | Freeze
    | Unfreeze
    | SweepNear
    | SweepFt(ft: AccountId, amount: nat)
    | ExecuteExtension(request: Request)

  // ---------------------------------------------------------------- reading the state

  predicate LeaseExpired(w: Wallet, now: nat) {
    now >= w.leaseUntil
  }

  function EffectiveFrozen(w: Wallet, now: nat): FreezeState {
    if w.frozen.AuthorityFrozen? && now >= w.authorityFreezeUntil then Unfrozen else w.frozen
  }

  /** `assert_renter_active`: the lease is running, nothing is parked and no freeze is in force. */
  predicate RenterActive(w: Wallet, now: nat) {
    w.state.Active? && !LeaseExpired(w, now) && EffectiveFrozen(w, now).Unfrozen?
  }

  predicate OwnerCaller(w: Wallet, caller: AccountId) {
    caller == w.owner && caller in w.extensions
  }

  /** Who may edit the extension set: the authority after expiry, the owner while the lease runs. */
  predicate ExtensionEditor(w: Wallet, now: nat, actor: AccountId) {
    if actor == w.authority then LeaseExpired(w, now)
    else OwnerCaller(w, actor) && RenterActive(w, now)
  }

  predicate Sweepable(w: Wallet, ctx: Ctx) {
    ctx.caller == w.authority && LeaseExpired(w, ctx.now)
  }

  function FreeBalance(ctx: Ctx): nat {
    SatSub(SatSub(ctx.balance, ctx.deposit), ctx.reserve)
  }

  // ---------------------------------------------------------------- initialisation

  datatype Config = Config(
    owner: AccountId,
    authority: AccountId,
    collection: AccountId,
    payout: AccountId,
    leaseUntil: nat,
    timeoutSecs: nat)

  predicate IsDirectSubaccount(child: AccountId, parent: AccountId) {
    var cut := |child| - |parent| - 1;
    cut > 0 && child[cut..] == "." + parent && '.' !in child[..cut]
  }

  function Init(account: AccountId, ctx: Ctx, c: Config): Option<Wallet> {
    if && IsDirectSubaccount(account, ctx.caller)
       && c.leaseUntil > ctx.now
       && MIN_TIMEOUT_SECS <= c.timeoutSecs <= MAX_TIMEOUT_SECS
       && c.authority != account
       && c.payout != account
       && c.owner != account
       && c.owner != c.authority
       && c.collection != account
    then Some(Wallet(account, c.authority, c.owner, c.collection, c.payout, {c.owner, c.authority},
                     c.leaseUntil, OperatingState.Active, Unfrozen, 0, map[], None, 0, 0))
    else None
  }

  // ---------------------------------------------------------------- spend grants

  predicate Grantable(target: AccountId, account: AccountId, collection: AccountId) {
    target != collection && target != account
  }

  /** What the held grant has already spent of `token`. */
  function HeldTokenSpend(held: Option<SpendGrant>, token: AccountId): nat {
    if held.Some? && token in held.value.tokens then held.value.tokens[token].spent else 0
  }

  function TokenBudgets(tokens: seq<TokenAllowance>, held: Option<SpendGrant>, w: Wallet)
    : Option<map<AccountId, TokenBudget>>
  {
    if tokens == [] then Some(map[])
    else
      var last := tokens[|tokens| - 1];
      var before := TokenBudgets(tokens[..|tokens| - 1], held, w);
      if before.None? || !Grantable(last.token, w.account, w.collection) || last.token in before.value then None
      else Some(before.value[last.token := TokenBudget(last.budget, HeldTokenSpend(held, last.token))])
  }

  function ItemFences(items: seq<ItemAllowance>, w: Wallet): Option<map<AccountId, set<string>>> {
    if items == [] then Some(map[])
    else
      var last := items[|items| - 1];
      var before := ItemFences(items[..|items| - 1], w);
      if before.None? || !Grantable(last.collection, w.account, w.collection) || last.tokenIds == []
         || last.collection in before.value then None
      else Some(before.value[last.collection := Elements(last.tokenIds)])
  }

  function HeldGrant(w: Wallet, extension: AccountId): Option<SpendGrant> {
    if extension in w.grants then Some(w.grants[extension]) else None
  }

  function Grant(w: Wallet, ctx: Ctx, c: Call): Option<Wallet>
    requires c.GrantSpend?
  {
    var held := HeldGrant(w, c.extension);
    var budgets := TokenBudgets(c.tokens, held, w);
    var fences := ItemFences(c.items, w);
    if && ctx.deposit == ONE_YOCTO
       && OwnerCaller(w, ctx.caller)
       && RenterActive(w, ctx.now)
       && c.extension != w.owner
       && c.extension != w.authority
       && c.extension in w.extensions
       && c.receivers != []
       && c.expiresAt > ctx.now
       && budgets.Some?
       && fences.Some?
    then
      var spent := if held.Some? then held.value.spent else 0;
      Some(w.(grants := w.grants[c.extension :=
        SpendGrant(Elements(c.receivers), c.budget, spent, budgets.value, fences.value, c.expiresAt)]))
    else None
  }

  // ---------------------------------------------------------------- charging a request

  function ActionDeposit(a: Action): nat {
    match a
    case Transfer(amount) => amount
    case FunctionCall(_, _, deposit) => deposit
    case OtherAction(attached) => attached
  }

  function TotalDeposit(actions: seq<Action>): nat {
    if actions == [] then 0
    else TotalDeposit(actions[..|actions| - 1]) + ActionDeposit(actions[|actions| - 1])
  }

  function RequestDeposit(promises: seq<Promise>): nat {
    if promises == [] then 0
    else RequestDeposit(promises[..|promises| - 1]) + TotalDeposit(promises[|promises| - 1].actions)
  }

  predicate HasCall(actions: seq<Action>) {
    exists i | 0 <= i < |actions| :: actions[i].FunctionCall?
  }

  function ChargeTransfer(g: SpendGrant, p: Promise): Option<SpendGrant> {
    var spent := g.spent + TotalDeposit(p.actions);
    if && p.receiver in g.receivers
       && (forall i | 0 <= i < |p.actions| :: p.actions[i].Transfer?)
       && spent <= MAX_U128
       && spent <= g.budget
    then Some(g.(spent := spent))
    else None
  }

  function ChargeFt(g: SpendGrant, token: AccountId, args: CallArgs): Option<SpendGrant> {
    if args.FtTransferArgs? && args.receiver in g.receivers && token in g.tokens then
      var held := g.tokens[token];
      var spent := held.spent + args.amount;
      if spent <= MAX_U128 && spent <= held.budget
      then Some(g.(tokens := g.tokens[token := held.(spent := spent)]))
      else None
    else None
  }

  predicate NftAllowed(g: SpendGrant, collection: AccountId, args: CallArgs) {
    && args.NftTransferArgs?
    && args.approval.None?
    && args.receiver in g.receivers
    && collection in g.items
    && args.tokenId in g.items[collection]
  }

  function ChargePromise(g: SpendGrant, collection: AccountId, p: Promise): Option<SpendGrant> {
    if p.refundTo.Some? then None
    else if !HasCall(p.actions) then ChargeTransfer(g, p)
    else if |p.actions| != 1 then None
    else
      var call := p.actions[0];
      if call.deposit != ONE_YOCTO || p.receiver == collection then None
      else if call.name == "ft_transfer" then ChargeFt(g, p.receiver, call.args)
      else if call.name == "nft_transfer" && NftAllowed(g, p.receiver, call.args) then Some(g)
      else None
  }

  function ChargeAll(g: SpendGrant, collection: AccountId, promises: seq<Promise>): Option<SpendGrant> {
    if promises == [] then Some(g)
    else
      var before := ChargeAll(g, collection, promises[..|promises| - 1]);
      if before.None? then None
      else ChargePromise(before.value, collection, promises[|promises| - 1])
  }

  /** `charge_spend`: the owner is not metered, anyone else needs a live grant that covers it all. */
  function ChargeSpend(w: Wallet, now: nat, actor: AccountId, promises: seq<Promise>): Option<Wallet> {
    if actor == w.owner then Some(w)
    else if actor !in w.grants || now >= w.grants[actor].expiresAt then None
    else
      var charged := ChargeAll(w.grants[actor], w.collection, promises);
      if charged.None? then None else Some(w.(grants := w.grants[actor := charged.value]))
  }

  predicate WithinReserve(ctx: Ctx, promises: seq<Promise>) {
    RequestDeposit(promises) <= MAX_U128 && SatSub(ctx.balance, RequestDeposit(promises)) >= ctx.reserve
  }

  // ---------------------------------------------------------------- executing a request

  function ExecuteOp(w: Wallet, now: nat, actor: AccountId, op: WalletOp): Option<Wallet> {
    match op
    case SetSignatureMode => None
    case AddExtension(id) =>
      if ExtensionEditor(w, now, actor) && id != w.account && id !in w.extensions
      then Some(w.(extensions := w.extensions + {id}))
      else None
    case RemoveExtension(id) =>
      if ExtensionEditor(w, now, actor) && id != w.authority && id in w.extensions
         && w.extensions - {id} != {}
      then Some(w.(extensions := w.extensions - {id}, grants := w.grants - {id}))
      else None
  }

  function ExecuteOps(w: Wallet, now: nat, actor: AccountId, ops: seq<WalletOp>): Option<Wallet> {
    if ops == [] then Some(w)
    else
      var before := ExecuteOps(w, now, actor, ops[..|ops| - 1]);
      if before.None? then None else ExecuteOp(before.value, now, actor, ops[|ops| - 1])
  }

  function SendExternal(w: Wallet, ctx: Ctx, promises: seq<Promise>): Option<Wallet> {
    var charged := ChargeSpend(w, ctx.now, ctx.caller, promises);
    if && ctx.caller != w.authority
       && RenterActive(w, ctx.now)
       && charged.Some?
       && WithinReserve(ctx, promises)
       && (forall i | 0 <= i < |promises| :: promises[i].receiver != w.account)
    then charged
    else None
  }

  function Execute(w: Wallet, ctx: Ctx, r: Request): Option<Wallet> {
    if ctx.deposit == 0 || ctx.caller !in w.extensions then None
    else
      var edited := ExecuteOps(w, ctx.now, ctx.caller, r.internal);
      if edited.None? || r.external == [] then edited
      else SendExternal(edited.value, ctx, r.external)
  }

  // ---------------------------------------------------------------- rotation

  /** Every check `apply_rotation` makes, in any order: failing one reverts the whole call. */
  predicate RotationAllowed(w: Wallet, now: nat, to: Option<AccountId>, cause: RotationCause,
                            askedBy: Option<AccountId>) {
    && (if cause.Revert? then
          w.revertTo.Some? && now < w.revertUntil && to == w.revertTo
        else
          && (cause.NeedsHolder() ==>
                askedBy.Some? && askedBy.value != w.authority && askedBy.value in w.extensions)
          && (cause.NeedsExpiry() ==> LeaseExpired(w, now)))
    && (to.Some? ==> to.value != w.account && to.value != w.authority)
    && w.authority in w.extensions
  }

  /** What every rotation takes away: grants, co-owners, and any older revert target. */
  function Stripped(w: Wallet, now: nat, cause: RotationCause): Wallet {
    w.(revertTo := if cause.Revert? then None else Some(w.owner),
       revertUntil := if cause.Revert? then 0 else now + REVERT_WINDOW_NS,
       grants := map[],
       rotationSeq := w.rotationSeq + 1,
       extensions := w.extensions * {w.authority},
       state := if cause.Parks() then OperatingState.Parked else w.state)
  }

  function Installed(w: Wallet, next: AccountId, cause: RotationCause): Wallet {
    w.(frozen := if next != w.owner && w.frozen.SelfFrozen? then Unfrozen else w.frozen,
       extensions := w.extensions + {next},
       owner := next,
       payout := if cause.RepointsPayout() then next else w.payout)
  }

  function Rotated(w: Wallet, now: nat, to: Option<AccountId>, cause: RotationCause): Wallet {
    match to
    case None => Stripped(w, now, cause)
    case Some(next) => Installed(Stripped(w, now, cause), next, cause)
  }

  function Rotate(w: Wallet, now: nat, to: Option<AccountId>, cause: RotationCause,
                  askedBy: Option<AccountId>): Option<Wallet> {
    if RotationAllowed(w, now, to, cause, askedBy) then Some(Rotated(w, now, to, cause)) else None
  }

  /** The balance a rotation sends away, and to whom: the payout account as it was before. */
  function RotationSweep(w: Wallet, ctx: Ctx, to: Option<AccountId>, cause: RotationCause)
    : Option<(AccountId, nat)>
  {
    if cause.Sweeps() && to != Some(w.payout) && w.payout != w.account && FreeBalance(ctx) > 0
    then Some((w.payout, FreeBalance(ctx)))
    else None
  }

  // ---------------------------------------------------------------- the other calls

  function SetLeaseTo(w: Wallet, ctx: Ctx, until: nat, state: OperatingState): Option<Wallet> {
    if ctx.deposit == ONE_YOCTO && ctx.caller == w.authority && until >= w.leaseUntil && state.Active?
    then Some(w.(leaseUntil := until, state := state))
    else None
  }

  function RetractLeaseTo(w: Wallet, ctx: Ctx, until: nat): Option<Wallet> {
    if && ctx.deposit == ONE_YOCTO
       && ctx.caller == w.authority
       && until <= w.leaseUntil
       && until >= ctx.now + MIN_LEASE_RETRACT_NOTICE_NS
    then Some(w.(leaseUntil := until))
    else None
  }

  function SetPayoutTo(w: Wallet, ctx: Ctx, payout: AccountId, expectedOwner: AccountId): Option<Wallet> {
    if && ctx.deposit == ONE_YOCTO
       && ctx.caller == w.authority
       && w.owner == expectedOwner
       && payout != w.account
    then Some(w.(payout := payout))
    else None
  }

  function TransferTo(w: Wallet, ctx: Ctx, to: Option<AccountId>, cause: RotationCause,
                      askedBy: Option<AccountId>): Option<Wallet> {
    if && ctx.deposit == ONE_YOCTO
       && ctx.caller == w.authority
       && !cause.ReRent?
       && (cause.Recovery? ==> !EffectiveFrozen(w, ctx.now).SelfFrozen?)
    then Rotate(w, ctx.now, to, cause, askedBy)
    else None
  }

  function ReRentTo(w: Wallet, ctx: Ctx, to: AccountId, payout: AccountId, until: nat): Option<Wallet> {
    if && ctx.deposit == ONE_YOCTO
       && ctx.caller == w.authority
       && until >= w.leaseUntil
       && until > ctx.now
       && payout != w.account
    then
      var rotated := Rotate(w, ctx.now, Some(to), RotationCause.ReRent, None);
      if rotated.None? then None
      else Some(rotated.value.(payout := payout, leaseUntil := until, state := OperatingState.Active))
    else None
  }

  predicate MayFreeze(w: Wallet, ctx: Ctx) {
    && ctx.deposit == ONE_YOCTO
    && (ctx.caller == w.authority || ctx.caller == w.owner)
    && ctx.caller in w.extensions
  }

  function FreezeBy(w: Wallet, ctx: Ctx): Option<Wallet> {
    if !MayFreeze(w, ctx) || !EffectiveFrozen(w, ctx.now).Unfrozen? then None
    else if ctx.caller != w.authority then Some(w.(frozen := SelfFrozen))
    else if ctx.now < w.authorityFreezeUntil + AUTHORITY_FREEZE_COOLDOWN_NS then None
    else Some(w.(authorityFreezeUntil := ctx.now + MAX_AUTHORITY_HOLD_NS, frozen := AuthorityFrozen))
  }

  function UnfreezeBy(w: Wallet, ctx: Ctx): Option<Wallet> {
    if !MayFreeze(w, ctx) then None
    else
      var lifted :=
        match EffectiveFrozen(w, ctx.now)
        case Unfrozen => false
        case SelfFrozen => ctx.caller != w.authority
        case AuthorityFrozen => ctx.caller == w.authority;
      if lifted then Some(w.(frozen := Unfrozen)) else None
  }

  /** One call on the wallet: the new state, or `None` when the call panics. */
  function Apply(w: Wallet, ctx: Ctx, c: Call): Option<Wallet> {
    match c
    case GrantSpend(_, _, _, _, _, _) => Grant(w, ctx, c)
    case RevokeSpend(id) =>
      if ctx.deposit == ONE_YOCTO && OwnerCaller(w, ctx.caller)
      then Some(w.(grants := w.grants - {id})) else None
    case SetPayoutAccount(payout, expected) => SetPayoutTo(w, ctx, payout, expected)
    case SetLease(until, state) => SetLeaseTo(w, ctx, until, state)
    case RetractLease(until) => RetractLeaseTo(w, ctx, until)
    case TransferOwnership(to, cause, askedBy) => TransferTo(w, ctx, to, cause, askedBy)
    case ReRent(to, payout, until) => ReRentTo(w, ctx, to, payout, until)
    case Freeze => FreezeBy(w, ctx)
    case Unfreeze => UnfreezeBy(w, ctx)
    case SweepNear =>
      if ctx.deposit == ONE_YOCTO && Sweepable(w, ctx) && FreeBalance(ctx) > 0 then Some(w) else None
    case SweepFt(ft, amount) =>
      if ctx.deposit == ONE_YOCTO && Sweepable(w, ctx) && amount > 0 && ft != w.account
      then Some(w) else None
    case ExecuteExtension(r) => Execute(w, ctx, r)
  }

  predicate Accepted(w: Wallet, ctx: Ctx, c: Call) {
    Apply(w, ctx, c).Some?
  }

  function After(w: Wallet, ctx: Ctx, c: Call): Wallet {
    var r := Apply(w, ctx, c);
    if r.Some? then r.value else w
  }
}
