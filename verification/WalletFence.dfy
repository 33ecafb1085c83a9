/** The fence of a spend grant: a grantee sends nothing but what the owner listed, while the grant lasts. */
module WalletFence {
  import opened Common
  import opened WalletModel
  import opened WalletRuns
  import opened WalletSpend

  // ---------------------------------------------------------------- what a grant lets through

  predicate OnlyTransfersTo(receivers: set<AccountId>, p: Promise) {
    p.receiver in receivers && forall i :: 0 <= i < |p.actions| ==> p.actions[i].Transfer?
  }

  predicate OneCall(p: Promise, name: string) {
    |p.actions| == 1 && p.actions[0].FunctionCall? && p.actions[0].name == name && p.actions[0].deposit == 1
  }

  predicate TokenTransfer(g: SpendGrant, p: Promise) {
    && OneCall(p, "ft_transfer") && p.receiver in g.tokens
    && p.actions[0].args.FtTransferArgs? && p.actions[0].args.receiver in g.receivers
  }

  predicate ItemTransfer(g: SpendGrant, p: Promise) {
    && OneCall(p, "nft_transfer") && p.receiver in g.items
    && p.actions[0].args.NftTransferArgs? && p.actions[0].args.approval.None?
    && p.actions[0].args.receiver in g.receivers && p.actions[0].args.tokenId in g.items[p.receiver]
  }

  /** One of the three things a grantee may send, and no refund diverted. */
  predicate Fenced(g: SpendGrant, p: Promise) {
    p.refundTo.None? && (OnlyTransfersTo(g.receivers, p) || TokenTransfer(g, p) || ItemTransfer(g, p))
  }

  lemma ChargedIsFenced(g: SpendGrant, collection: AccountId, p: Promise)
    requires ChargePromise(g, collection, p).Some?
    ensures Fenced(g, p)
  {
    if HasCall(p.actions) {
      SingleCall(p.actions);
    }
  }

  /** The budget left covers the promise. */
  predicate Affordable(g: SpendGrant, p: Promise) {
    if TokenTransfer(g, p) then
      g.tokens[p.receiver].spent + p.actions[0].args.amount <= Min(g.tokens[p.receiver].budget, MAX_U128)
    else !ItemTransfer(g, p) ==> g.spent + TotalDeposit(p.actions) <= Min(g.budget, MAX_U128)
  }

  /** A promise passes exactly if it is inside the fence, within the budget and no call on the wallet's own collection. */
  lemma PromisesPassIff(g: SpendGrant, collection: AccountId, p: Promise)
    ensures ChargePromise(g, collection, p).Some?
            <==> Fenced(g, p) && Affordable(g, p) && (TokenTransfer(g, p) || ItemTransfer(g, p) ==> p.receiver != collection)
  {
    if HasCall(p.actions) {
      if |p.actions| == 1 {
        assert p.actions[0].FunctionCall?;
      }
    } else if |p.actions| == 1 {
      assert !p.actions[0].FunctionCall?;
    }
  }

  lemma {:induction false} AllChargedAreFenced(g: SpendGrant, collection: AccountId, promises: seq<Promise>, k: nat)
    requires ChargeAll(g, collection, promises).Some? && k < |promises|
    ensures Fenced(g, promises[k])
  {
    var last := |promises| - 1;
    if k < last {
      AllChargedAreFenced(g, collection, promises[..last], k);
    } else {
      RequestMeter(g, collection, promises[..last]);
      var g' := ChargeAll(g, collection, promises[..last]).value;
      ChargedIsFenced(g', collection, promises[k]);
      SameFence(g, g', promises[k]);
    }
  }

  lemma SameFence(g: SpendGrant, g': SpendGrant, p: Promise)
    requires g'.receivers == g.receivers && g'.items == g.items && g'.tokens.Keys == g.tokens.Keys && Fenced(g', p)
    ensures Fenced(g, p)
  {
    assert p.receiver in g'.tokens <==> p.receiver in g'.tokens.Keys;
    assert p.receiver in g.tokens <==> p.receiver in g.tokens.Keys;
  }

  predicate Sends(w: Wallet, step: Step) {
    step.call.ExecuteExtension? && step.call.request.external != [] && Succeeds(w, step)
  }

  lemma SendNeedsGrant(w: Wallet, step: Step, k: nat)
    requires Sound(w) && Sends(w, step) && step.ctx.caller != w.owner && k < |step.call.request.external|
    ensures step.ctx.caller in w.grants && step.ctx.now < w.grants[step.ctx.caller].expiresAt
    ensures Fenced(w.grants[step.ctx.caller], step.call.request.external[k])
  {
    var e := step.ctx.caller;
    OpsKeepSound(w, step.ctx.now, e, step.call.request.internal);
    if e != w.authority && step.call.request.internal != [] {
      GranteeCannotEdit(w, step.ctx.now, e, step.call.request.internal);
    }
    AllChargedAreFenced(w.grants[e], w.collection, step.call.request.external, k);
  }

  // ---------------------------------------------------------------- where a grant comes from

  /** The grant is what the owner's call asked for, whatever has been spent since. */
  ghost predicate AsAsked(g: SpendGrant, c: Call)
    requires c.GrantSpend?
  {
    && g.receivers == Elements(c.receivers) && g.budget == c.budget && g.expiresAt == c.expiresAt
    && (forall t :: t in g.tokens ==> exists k :: 0 <= k < |c.tokens| && c.tokens[k] == TokenAllowance(t, g.tokens[t].budget))
    && (forall n :: n in g.items ==> exists k :: 0 <= k < |c.items| && ItemsAsked(c.items[k], n, g.items[n]))
  }

  predicate ItemsAsked(a: ItemAllowance, collection: AccountId, ids: set<string>) {
    a.collection == collection && Elements(a.tokenIds) == ids
  }

  lemma {:induction false} BudgetsAsAsked(tokens: seq<TokenAllowance>, held: Option<SpendGrant>, w: Wallet, t: AccountId) returns (k: nat)
    requires TokenBudgets(tokens, held, w).Some? && t in TokenBudgets(tokens, held, w).value
    ensures k < |tokens| && tokens[k] == TokenAllowance(t, TokenBudgets(tokens, held, w).value[t].budget)
  {
    var last := |tokens| - 1;
    if tokens[last].token == t {
      k := last;
    } else {
      k := BudgetsAsAsked(tokens[..last], held, w, t);
    }
  }

  lemma {:induction false} FencesAsAsked(items: seq<ItemAllowance>, w: Wallet, n: AccountId) returns (k: nat)
    requires ItemFences(items, w).Some? && n in ItemFences(items, w).value
    ensures k < |items| && ItemsAsked(items[k], n, ItemFences(items, w).value[n])
  {
    var last := |items| - 1;
    if items[last].collection == n {
      k := last;
    } else {
      k := FencesAsAsked(items[..last], w, n);
    }
  }

  lemma GrantedAsAsked(w: Wallet, step: Step)
    requires step.call.GrantSpend? && Succeeds(w, step)
    ensures step.ctx.caller == w.owner
    ensures step.call.extension in Next(w, step).grants && AsAsked(Next(w, step).grants[step.call.extension], step.call)
  {
    var c := step.call;
    var g := Next(w, step).grants[c.extension];
    forall t | t in g.tokens
      ensures exists k :: 0 <= k < |c.tokens| && c.tokens[k] == TokenAllowance(t, g.tokens[t].budget)
    {
      var k := BudgetsAsAsked(c.tokens, HeldGrant(w, c.extension), w, t);
    }
    forall n | n in g.items
      ensures exists k :: 0 <= k < |c.items| && ItemsAsked(c.items[k], n, g.items[n])
    {
      var k := FencesAsAsked(c.items, w, n);
    }
  }

  /** Without a new grant a step can only move the meters of one that stays, and a rotation leaves none. */
  lemma GrantKept(w: Wallet, step: Step, e: AccountId)
    requires Sound(w) && e in Next(w, step).grants
    requires !(step.call.GrantSpend? && step.call.extension == e && Succeeds(w, step))
    ensures e in w.grants && Next(w, step).owner == w.owner
    ensures var g, g' := w.grants[e], Next(w, step).grants[e];
            && g'.receivers == g.receivers && g'.budget == g.budget && g'.expiresAt == g.expiresAt && g'.items == g.items
            && g'.tokens.Keys == g.tokens.Keys && forall t :: t in g.tokens ==> g'.tokens[t].budget == g.tokens[t].budget
  {
    if step.call.ExecuteExtension? && Succeeds(w, step) {
      RequestKeepsFence(w, step.ctx, step.call.request, e);
    }
  }

  lemma RequestKeepsFence(w: Wallet, ctx: Ctx, r: Request, e: AccountId)
    requires Sound(w) && Execute(w, ctx, r).Some? && e in Execute(w, ctx, r).value.grants
    ensures e in w.grants && Execute(w, ctx, r).value.owner == w.owner
    ensures var g, g' := w.grants[e], Execute(w, ctx, r).value.grants[e];
            && g'.receivers == g.receivers && g'.budget == g.budget && g'.expiresAt == g.expiresAt && g'.items == g.items
            && g'.tokens.Keys == g.tokens.Keys && forall t :: t in g.tokens ==> g'.tokens[t].budget == g.tokens[t].budget
  {
    var edited := ExecuteOps(w, ctx.now, ctx.caller, r.internal).value;
    EditsKeepGrants(w, ctx.now, ctx.caller, r.internal, e);
    if r.external != [] && ctx.caller != edited.owner {
      RequestMeter(edited.grants[ctx.caller], edited.collection, r.external);
    }
  }

  lemma {:induction false} EditsKeepGrants(w: Wallet, now: nat, actor: AccountId, ops: seq<WalletOp>, e: AccountId)
    requires ExecuteOps(w, now, actor, ops).Some?
    ensures var w' := ExecuteOps(w, now, actor, ops).value;
            && w'.owner == w.owner && w'.collection == w.collection
            && (e in w'.grants ==> e in w.grants && w'.grants[e] == w.grants[e])
  {
    if ops != [] {
      EditsKeepGrants(w, now, actor, ops[..|ops| - 1], e);
    }
  }

  lemma AskedStays(g: SpendGrant, g': SpendGrant, c: Call)
    requires c.GrantSpend? && AsAsked(g, c)
    requires g'.receivers == g.receivers && g'.budget == g.budget && g'.expiresAt == g.expiresAt && g'.items == g.items
    requires g'.tokens.Keys == g.tokens.Keys && forall t :: t in g.tokens ==> g'.tokens[t].budget == g.tokens[t].budget
    ensures AsAsked(g', c)
  {
    forall t | t in g'.tokens
      ensures exists k :: 0 <= k < |c.tokens| && c.tokens[k] == TokenAllowance(t, g'.tokens[t].budget)
    {
      assert t in g'.tokens.Keys;
      assert t in g.tokens;
    }
  }

  /** Every grant in force was asked for, list by list, by the owner who still holds the wallet. */
  lemma {:induction false} GrantOrigin(start: nat, ws: seq<Wallet>, steps: seq<Step>, e: AccountId, i: nat) returns (j: nat)
    requires Run(start, ws, steps) && i < |ws| && e in ws[i].grants
    ensures j < i && steps[j].call.GrantSpend? && steps[j].call.extension == e && Succeeds(ws[j], steps[j])
    ensures steps[j].ctx.caller == ws[j].owner == ws[i].owner && AsAsked(ws[i].grants[e], steps[j].call)
  {
    var w, step := ws[i - 1], steps[i - 1];
    RunsAreSound(start, ws, steps, i - 1);
    assert ws[i - 1 + 1] == Next(w, step);
    if step.call.GrantSpend? && step.call.extension == e && Succeeds(w, step) {
      GrantedAsAsked(w, step);
      j := i - 1;
    } else {
      GrantKept(w, step, e);
      j := GrantOrigin(start, ws, steps, e, i - 1);
      AskedStays(w.grants[e], ws[i].grants[e], steps[j].call);
    }
  }

  /**
   The fence: every promise of an accepted request by anyone but the owner is plain transfers to a
   receiver, one transfer of a listed token to a receiver, or one transfer of a fenced item to a receiver,
   as listed in a grant the present owner gave and that has not expired.
   */
  lemma GranteesStayInside(start: nat, ws: seq<Wallet>, steps: seq<Step>, i: nat, k: nat) returns (j: nat)
    requires Run(start, ws, steps) && i < |steps| && Sends(ws[i], steps[i]) && steps[i].ctx.caller != ws[i].owner
    requires k < |steps[i].call.request.external|
    ensures steps[i].ctx.caller in ws[i].grants && Fenced(ws[i].grants[steps[i].ctx.caller], steps[i].call.request.external[k])
    ensures j < i && steps[j].call.GrantSpend? && steps[j].call.extension == steps[i].ctx.caller && Succeeds(ws[j], steps[j])
    ensures steps[j].ctx.caller == ws[j].owner == ws[i].owner && AsAsked(ws[i].grants[steps[i].ctx.caller], steps[j].call)
    ensures steps[i].ctx.now < steps[j].call.expiresAt
  {
    RunsAreSound(start, ws, steps, i);
    SendNeedsGrant(ws[i], steps[i], k);
    j := GrantOrigin(start, ws, steps, steps[i].ctx.caller, i);
  }
}
