/**
 The tenant wallet as it is written: an object whose methods check their caller, update its
 fields in place and loop over requests. Each method is proved to do what the value model says.
 A panic undoes the call, so a method that answers `false` has changed nothing; the checks are
 gathered ahead of the writes, which a reverting call cannot tell apart.
 */
module TenantWallet {
  import opened Common
  import M = WalletModel

  lemma {:induction false} TokenBudgetsFailForGood(tokens: seq<M.TokenAllowance>, held: Option<M.SpendGrant>, w: M.Wallet, i: nat)
    requires i <= |tokens| && M.TokenBudgets(tokens[..i], held, w).None?
    ensures M.TokenBudgets(tokens, held, w).None?
    decreases |tokens|
  {
    if i < |tokens| {
      assert tokens[..|tokens| - 1][..i] == tokens[..i];
      TokenBudgetsFailForGood(tokens[..|tokens| - 1], held, w, i);
    } else {
      assert tokens[..i] == tokens;
    }
  }

  lemma {:induction false} ItemFencesFailForGood(items: seq<M.ItemAllowance>, w: M.Wallet, i: nat)
    requires i <= |items| && M.ItemFences(items[..i], w).None?
    ensures M.ItemFences(items, w).None?
    decreases |items|
  {
    if i < |items| {
      assert items[..|items| - 1][..i] == items[..i];
      ItemFencesFailForGood(items[..|items| - 1], w, i);
    } else {
      assert items[..i] == items;
    }
  }

  lemma {:induction false} ChargeFailsForGood(g: M.SpendGrant, collection: AccountId, promises: seq<M.Promise>, i: nat)
    requires i <= |promises| && M.ChargeAll(g, collection, promises[..i]).None?
    ensures M.ChargeAll(g, collection, promises).None?
    decreases |promises|
  {
    if i < |promises| {
      assert promises[..|promises| - 1][..i] == promises[..i];
      ChargeFailsForGood(g, collection, promises[..|promises| - 1], i);
    } else {
      assert promises[..i] == promises;
    }
  }

  lemma {:induction false} OpsFailForGood(w: M.Wallet, now: nat, actor: AccountId, ops: seq<M.WalletOp>, i: nat)
    requires i <= |ops| && M.ExecuteOps(w, now, actor, ops[..i]).None?
    ensures M.ExecuteOps(w, now, actor, ops).None?
    decreases |ops|
  {
    if i < |ops| {
      assert ops[..|ops| - 1][..i] == ops[..i];
      OpsFailForGood(w, now, actor, ops[..|ops| - 1], i);
    } else {
      assert ops[..i] == ops;
    }
  }

  lemma {:induction false} DepositGrows(promises: seq<M.Promise>, i: nat)
    requires i <= |promises|
    ensures M.RequestDeposit(promises[..i]) <= M.RequestDeposit(promises)
    decreases |promises|
  {
    if i < |promises| {
      assert promises[..|promises| - 1][..i] == promises[..i];
      DepositGrows(promises[..|promises| - 1], i);
    } else {
      assert promises[..i] == promises;
    }
  }

  /** `total_deposit`: what one promise attaches across its actions. */
  method TotalDeposit(actions: seq<M.Action>) returns (total: nat)
    ensures total == M.TotalDeposit(actions)
  {
    total := 0;
    for i := 0 to |actions|
      invariant total == M.TotalDeposit(actions[..i])
    {
      assert actions[..i + 1][..i] == actions[..i];
      total := total + M.ActionDeposit(actions[i]);
    }
    assert actions[..|actions|] == actions;
  }

  /** `charge_transfer`, `charge_ft_transfer` and `charge_nft_transfer`, chosen by the promise's one call. */
  method ChargePromise(g: M.SpendGrant, collection: AccountId, p: M.Promise) returns (charged: Option<M.SpendGrant>)
    ensures charged == M.ChargePromise(g, collection, p)
  {
    if p.refundTo.Some? {
      return None;
    }
    var k := 0;
    while k < |p.actions| && !p.actions[k].FunctionCall?
      invariant 0 <= k <= |p.actions|
      invariant forall i :: 0 <= i < k ==> !p.actions[i].FunctionCall?
    {
      k := k + 1;
    }
    if k == |p.actions| {
      if p.receiver !in g.receivers {
        return None;
      }
      for i := 0 to |p.actions|
        invariant forall j :: 0 <= j < i ==> p.actions[j].Transfer?
      {
        if !p.actions[i].Transfer? {
          return None;
        }
      }
      var amount := TotalDeposit(p.actions);
      var spent := g.spent + amount;
      if spent > MAX_U128 || spent > g.budget {
        return None;
      }
      return Some(g.(spent := spent));
    }
    if |p.actions| != 1 {
      return None;
    }
    var call := p.actions[k];
    if call.deposit != M.ONE_YOCTO || p.receiver == collection {
      return None;
    }
    if call.name == "ft_transfer" {
      if !call.args.FtTransferArgs? || call.args.receiver !in g.receivers || p.receiver !in g.tokens {
        return None;
      }
      var budget := g.tokens[p.receiver];
      var spent := budget.spent + call.args.amount;
      if spent > MAX_U128 || spent > budget.budget {
        return None;
      }
      return Some(g.(tokens := g.tokens[p.receiver := budget.(spent := spent)]));
    }
    if call.name == "nft_transfer" {
      if !call.args.NftTransferArgs? || call.args.approval.Some? || call.args.receiver !in g.receivers {
        return None;
      }
      if p.receiver !in g.items || call.args.tokenId !in g.items[p.receiver] {
        return None;
      }
      return Some(g);
    }
    return None;
  }

  /** `assert_within_reserve`: the request's deposits together leave the reserve untouched. */
  method WithinReserve(ctx: M.Ctx, promises: seq<M.Promise>) returns (ok: bool)
    ensures ok == M.WithinReserve(ctx, promises)
  {
    var total := 0;
    for i := 0 to |promises|
      invariant total == M.RequestDeposit(promises[..i]) <= MAX_U128
    {
      var attached := TotalDeposit(promises[i].actions);
      total := total + attached;
      assert promises[..i + 1][..i] == promises[..i];
      if total > MAX_U128 {
        DepositGrows(promises, i + 1);
        return false;
      }
    }
    assert promises[..|promises|] == promises;
    return SatSub(ctx.balance, total) >= ctx.reserve;
  }

  class TenantWallet {
    const account: AccountId
    const authority: AccountId
    const collection: AccountId
    var owner: AccountId
    var payout: AccountId
    var extensions: set<AccountId>
    var leaseUntil: nat
    var state: OperatingState
    var frozen: M.FreezeState
    var authorityFreezeUntil: nat
    var grants: map<AccountId, M.SpendGrant>
    var revertTo: Option<AccountId>
    var revertUntil: nat
    var rotationSeq: nat

    function Snapshot(): M.Wallet
      reads this
    {
      M.Wallet(account, authority, owner, collection, payout, extensions, leaseUntil, state, frozen,
               authorityFreezeUntil, grants, revertTo, revertUntil, rotationSeq)
    }

    /** `hos_init`, once its checks have passed. */
    constructor (here: AccountId, ctx: M.Ctx, c: M.Config)
      requires M.Init(here, ctx, c).Some?
      ensures Some(Snapshot()) == M.Init(here, ctx, c)
    {
      account, authority, collection := here, c.authority, c.collection;
      owner, payout := c.owner, c.payout;
      extensions := {c.owner, c.authority};
      leaseUntil, state := c.leaseUntil, OperatingState.Active;
      frozen, authorityFreezeUntil := M.Unfrozen, 0;
      grants := map[];
      revertTo, revertUntil, rotationSeq := None, 0, 0;
    }

    method TokenBudgets(tokens: seq<M.TokenAllowance>, held: Option<M.SpendGrant>)
      returns (budgets: Option<map<AccountId, M.TokenBudget>>)
      ensures budgets == M.TokenBudgets(tokens, held, Snapshot())
    {
      var built := map[];
      for i := 0 to |tokens|
        invariant M.TokenBudgets(tokens[..i], held, Snapshot()) == Some(built)
      {
        var allowance := tokens[i];
        assert tokens[..i + 1][..i] == tokens[..i];
        if !M.Grantable(allowance.token, account, collection) || allowance.token in built {
          TokenBudgetsFailForGood(tokens, held, Snapshot(), i + 1);
          return None;
        }
        built := built[allowance.token := M.TokenBudget(allowance.budget, M.HeldTokenSpend(held, allowance.token))];
      }
      assert tokens[..|tokens|] == tokens;
      return Some(built);
    }

    method ItemFences(items: seq<M.ItemAllowance>) returns (fences: Option<map<AccountId, set<string>>>)
      ensures fences == M.ItemFences(items, Snapshot())
    {
      var built := map[];
      for i := 0 to |items|
        invariant M.ItemFences(items[..i], Snapshot()) == Some(built)
      {
        var allowance := items[i];
        assert items[..i + 1][..i] == items[..i];
        if !M.Grantable(allowance.collection, account, collection) || allowance.tokenIds == []
           || allowance.collection in built {
          ItemFencesFailForGood(items, Snapshot(), i + 1);
          return None;
        }
        built := built[allowance.collection := Elements(allowance.tokenIds)];
      }
      assert items[..|items|] == items;
      return Some(built);
    }

    method GrantSpend(ctx: M.Ctx, extension: AccountId, receivers: seq<AccountId>, budget: nat,
                      tokens: seq<M.TokenAllowance>, items: seq<M.ItemAllowance>, expiresAt: nat) returns (ok: bool)
      modifies this`grants
      ensures var call := M.GrantSpend(extension, receivers, budget, tokens, items, expiresAt);
              ok == M.Accepted(old(Snapshot()), ctx, call) && Snapshot() == M.After(old(Snapshot()), ctx, call)
    {
      if ctx.deposit != M.ONE_YOCTO || !M.OwnerCaller(Snapshot(), ctx.caller)
         || !M.RenterActive(Snapshot(), ctx.now) {
        return false;
      }
      if extension == owner || extension == authority || extension !in extensions {
        return false;
      }
      if receivers == [] || expiresAt <= ctx.now {
        return false;
      }
      var held := M.HeldGrant(Snapshot(), extension);
      var spent := if held.Some? then held.value.spent else 0;
      var budgets := TokenBudgets(tokens, held);
      var fences := ItemFences(items);
      if budgets.None? || fences.None? {
        return false;
      }
      grants := grants[extension :=
        M.SpendGrant(Elements(receivers), budget, spent, budgets.value, fences.value, expiresAt)];
      return true;
    }

    method RevokeSpend(ctx: M.Ctx, extension: AccountId) returns (ok: bool)
      modifies this`grants
      ensures ok == M.Accepted(old(Snapshot()), ctx, M.RevokeSpend(extension))
      ensures Snapshot() == M.After(old(Snapshot()), ctx, M.RevokeSpend(extension))
    {
      if ctx.deposit != M.ONE_YOCTO || !M.OwnerCaller(Snapshot(), ctx.caller) {
        return false;
      }
      grants := grants - {extension};
      return true;
    }

    method SetPayoutAccount(ctx: M.Ctx, to: AccountId, expectedOwner: AccountId) returns (ok: bool)
      modifies this`payout
      ensures ok == M.Accepted(old(Snapshot()), ctx, M.SetPayoutAccount(to, expectedOwner))
      ensures Snapshot() == M.After(old(Snapshot()), ctx, M.SetPayoutAccount(to, expectedOwner))
    {
      if ctx.deposit != M.ONE_YOCTO || ctx.caller != authority {
        return false;
      }
      if owner != expectedOwner || to == account {
        return false;
      }
      payout := to;
      return true;
    }

    method SetLease(ctx: M.Ctx, until: nat, to: OperatingState) returns (ok: bool)
      modifies this`leaseUntil, this`state
      ensures ok == M.Accepted(old(Snapshot()), ctx, M.SetLease(until, to))
      ensures Snapshot() == M.After(old(Snapshot()), ctx, M.SetLease(until, to))
    {
      if ctx.deposit != M.ONE_YOCTO || ctx.caller != authority {
        return false;
      }
      if until < leaseUntil || to != OperatingState.Active {
        return false;
      }
      leaseUntil := until;
      state := to;
      return true;
    }

    method RetractLease(ctx: M.Ctx, until: nat) returns (ok: bool)
      modifies this`leaseUntil
      ensures ok == M.Accepted(old(Snapshot()), ctx, M.RetractLease(until))
      ensures Snapshot() == M.After(old(Snapshot()), ctx, M.RetractLease(until))
    {
      if ctx.deposit != M.ONE_YOCTO || ctx.caller != authority {
        return false;
      }
      if until > leaseUntil || until < ctx.now + MIN_LEASE_RETRACT_NOTICE_NS {
        return false;
      }
      leaseUntil := until;
      return true;
    }

    /** The checks of `apply_rotation`. */
    method RotationAllowed(now: nat, to: Option<AccountId>, cause: RotationCause, askedBy: Option<AccountId>)
      returns (ok: bool)
      ensures ok == M.RotationAllowed(Snapshot(), now, to, cause, askedBy)
    {
      if cause.Revert? {
        if revertTo.None? || now >= revertUntil || to != revertTo {
          return false;
        }
      } else {
        if cause.NeedsHolder() {
          if askedBy.None? || askedBy.value == authority || askedBy.value !in extensions {
            return false;
          }
        }
        if cause.NeedsExpiry() && now < leaseUntil {
          return false;
        }
      }
      if to.Some? && (to.value == account || to.value == authority) {
        return false;
      }
      return authority in extensions;
    }

    /** The part of a rotation that clears what the outgoing owner set up. */
    method Strip(now: nat, cause: RotationCause)
      modifies this
      ensures Snapshot() == M.Stripped(old(Snapshot()), now, cause)
    {
      if cause.Revert? {
        revertTo, revertUntil := None, 0;
      } else {
        revertTo, revertUntil := Some(owner), now + M.REVERT_WINDOW_NS;
      }
      grants := map[];
      rotationSeq := rotationSeq + 1;
      extensions := extensions * {authority};
      if cause.Parks() {
        state := OperatingState.Parked;
      }
    }

    /** The part of a rotation that installs the incoming owner. */
    method Install(next: AccountId, cause: RotationCause)
      modifies this
      ensures Snapshot() == M.Installed(old(Snapshot()), next, cause)
    {
      if next != owner && frozen.SelfFrozen? {
        frozen := M.Unfrozen;
      }
      extensions := extensions + {next};
      owner := next;
      if cause.RepointsPayout() {
        payout := next;
      }
    }

    /** `apply_rotation`, with the transfer that empties the account on the way out. */
    method ApplyRotation(ctx: M.Ctx, to: Option<AccountId>, cause: RotationCause, askedBy: Option<AccountId>)
      returns (ok: bool, swept: Option<(AccountId, nat)>)
      modifies this
      ensures var w := old(Snapshot());
              && ok == M.RotationAllowed(w, ctx.now, to, cause, askedBy)
              && Snapshot() == (if ok then M.Rotated(w, ctx.now, to, cause) else w)
              && swept == (if ok then M.RotationSweep(w, ctx, to, cause) else None)
    {
      ok := RotationAllowed(ctx.now, to, cause, askedBy);
      if !ok {
        return false, None;
      }
      var outgoing := payout;
      var sweepable := cause.Sweeps() && to != Some(outgoing);
      Strip(ctx.now, cause);
      if to.Some? {
        Install(to.value, cause);
      }
      swept := None;
      if sweepable && outgoing != account && M.FreeBalance(ctx) > 0 {
        swept := Some((outgoing, M.FreeBalance(ctx)));
      }
    }

    method TransferOwnership(ctx: M.Ctx, to: Option<AccountId>, cause: RotationCause, askedBy: Option<AccountId>)
      returns (ok: bool, swept: Option<(AccountId, nat)>)
      modifies this
      ensures var w, call := old(Snapshot()), M.TransferOwnership(to, cause, askedBy);
              && ok == M.Accepted(w, ctx, call) && Snapshot() == M.After(w, ctx, call)
              && swept == (if ok then M.RotationSweep(w, ctx, to, cause) else None)
    {
      if ctx.deposit != M.ONE_YOCTO || ctx.caller != authority || cause.ReRent? {
        return false, None;
      }
      if cause.Recovery? && M.EffectiveFrozen(Snapshot(), ctx.now).SelfFrozen? {
        return false, None;
      }
      ok, swept := ApplyRotation(ctx, to, cause, askedBy);
    }

    method ReRent(ctx: M.Ctx, to: AccountId, tenantPayout: AccountId, until: nat)
      returns (ok: bool, swept: Option<(AccountId, nat)>)
      modifies this
      ensures var w, call := old(Snapshot()), M.ReRent(to, tenantPayout, until);
              && ok == M.Accepted(w, ctx, call) && Snapshot() == M.After(w, ctx, call)
              && swept == (if ok then M.RotationSweep(w, ctx, Some(to), RotationCause.ReRent) else None)
    {
      if ctx.deposit != M.ONE_YOCTO || ctx.caller != authority {
        return false, None;
      }
      if until < leaseUntil || until <= ctx.now || tenantPayout == account {
        return false, None;
      }
      ok, swept := ApplyRotation(ctx, Some(to), RotationCause.ReRent, None);
      if ok {
        payout := tenantPayout;
        leaseUntil := until;
        state := OperatingState.Active;
      }
    }

    method Freeze(ctx: M.Ctx) returns (ok: bool)
      modifies this`frozen, this`authorityFreezeUntil
      ensures ok == M.Accepted(old(Snapshot()), ctx, M.Freeze)
      ensures Snapshot() == M.After(old(Snapshot()), ctx, M.Freeze)
    {
      if !M.MayFreeze(Snapshot(), ctx) || !M.EffectiveFrozen(Snapshot(), ctx.now).Unfrozen? {
        return false;
      }
      if ctx.caller != authority {
        frozen := M.SelfFrozen;
        return true;
      }
      if ctx.now < authorityFreezeUntil + M.AUTHORITY_FREEZE_COOLDOWN_NS {
        return false;
      }
      authorityFreezeUntil := ctx.now + MAX_AUTHORITY_HOLD_NS;
      frozen := M.AuthorityFrozen;
      return true;
    }

    method Unfreeze(ctx: M.Ctx) returns (ok: bool)
      modifies this`frozen
      ensures ok == M.Accepted(old(Snapshot()), ctx, M.Unfreeze)
      ensures Snapshot() == M.After(old(Snapshot()), ctx, M.Unfreeze)
    {
      if !M.MayFreeze(Snapshot(), ctx) {
        return false;
      }
      var byAuthority := ctx.caller == authority;
      match M.EffectiveFrozen(Snapshot(), ctx.now) {
        case Unfrozen => return false;
        case SelfFrozen =>
          if byAuthority {
            return false;
          }
        case AuthorityFrozen =>
          if !byAuthority {
            return false;
          }
      }
      frozen := M.Unfrozen;
      return true;
    }

    /** `add_extension` and `remove_extension`. */
    method ExecuteOp(now: nat, actor: AccountId, op: M.WalletOp) returns (ok: bool)
      modifies this`extensions, this`grants
      ensures var r := M.ExecuteOp(old(Snapshot()), now, actor, op);
              ok == r.Some? && Snapshot() == (if ok then r.value else old(Snapshot()))
    {
      match op {
        case SetSignatureMode => return false;
        case AddExtension(id) =>
          if !M.ExtensionEditor(Snapshot(), now, actor) || id == account || id in extensions {
            return false;
          }
          extensions := extensions + {id};
        case RemoveExtension(id) =>
          if !M.ExtensionEditor(Snapshot(), now, actor) || id == authority || id !in extensions
             || extensions - {id} == {} {
            return false;
          }
          extensions := extensions - {id};
          grants := grants - {id};
      }
      return true;
    }

    /** `charge_spend`: meters every promise against the caller's grant, unless the caller owns the name. */
    method ChargeSpend(now: nat, actor: AccountId, promises: seq<M.Promise>) returns (ok: bool)
      modifies this`grants
      ensures var r := M.ChargeSpend(old(Snapshot()), now, actor, promises);
              ok == r.Some? && Snapshot() == (if ok then r.value else old(Snapshot()))
    {
      if actor == owner {
        return true;
      }
      if actor !in grants || now >= grants[actor].expiresAt {
        return false;
      }
      var held, grant := grants[actor], grants[actor];
      for i := 0 to |promises|
        invariant grants == old(grants)
        invariant M.ChargeAll(held, collection, promises[..i]) == Some(grant)
      {
        assert promises[..i + 1][..i] == promises[..i];
        var charged := ChargePromise(grant, collection, promises[i]);
        if charged.None? {
          ChargeFailsForGood(held, collection, promises, i + 1);
          return false;
        }
        grant := charged.value;
      }
      assert promises[..|promises|] == promises;
      grants := grants[actor := grant];
      return true;
    }

    method SendExternal(ctx: M.Ctx, promises: seq<M.Promise>) returns (ok: bool)
      modifies this`grants
      ensures var r := M.SendExternal(old(Snapshot()), ctx, promises);
              ok == r.Some? && Snapshot() == (if ok then r.value else old(Snapshot()))
    {
      if ctx.caller == authority || !M.RenterActive(Snapshot(), ctx.now) {
        return false;
      }
      var covered := WithinReserve(ctx, promises);
      if !covered {
        return false;
      }
      for i := 0 to |promises|
        invariant forall j :: 0 <= j < i ==> promises[j].receiver != account
      {
        if promises[i].receiver == account {
          return false;
        }
      }
      ok := ChargeSpend(ctx.now, ctx.caller, promises);
    }

    /** `w_execute_extension`: edit the extension set op by op, then dispatch the promises. */
    method ExecuteExtension(ctx: M.Ctx, r: M.Request) returns (ok: bool)
      modifies this`extensions, this`grants
      ensures ok == M.Accepted(old(Snapshot()), ctx, M.ExecuteExtension(r))
      ensures Snapshot() == M.After(old(Snapshot()), ctx, M.ExecuteExtension(r))
    {
      if ctx.deposit == 0 || ctx.caller !in extensions {
        return false;
      }
      ghost var before := Snapshot();
      var heldExtensions, heldGrants := extensions, grants;
      for i := 0 to |r.internal|
        invariant before == Snapshot().(extensions := heldExtensions, grants := heldGrants)
        invariant M.ExecuteOps(before, ctx.now, ctx.caller, r.internal[..i]) == Some(Snapshot())
      {
        assert r.internal[..i + 1][..i] == r.internal[..i];
        ok := ExecuteOp(ctx.now, ctx.caller, r.internal[i]);
        if !ok {
          OpsFailForGood(before, ctx.now, ctx.caller, r.internal, i + 1);
          extensions, grants := heldExtensions, heldGrants;
          return false;
        }
      }
      assert r.internal[..|r.internal|] == r.internal;
      if r.external == [] {
        return true;
      }
      ok := SendExternal(ctx, r.external);
      if !ok {
        extensions, grants := heldExtensions, heldGrants;
      }
    }
  }
}
