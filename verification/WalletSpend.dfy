/**
 Spend grants over whole runs: the meter of a grant equals what its holder really moved since
 the grant was made, topping up cannot un-spend it, and no request dips into the reserve.
 */
module WalletSpend {
  import opened Common
  import opened WalletModel
  import opened WalletRuns

  // ---------------------------------------------------------------- what a request moves

  /** NEAR leaving by plain transfer actions. */
  function TransferTotal(actions: seq<Action>): nat {
    if actions == [] then 0
    else
      var last := actions[|actions| - 1];
      TransferTotal(actions[..|actions| - 1]) + if last.Transfer? then last.amount else 0
  }

  function NearSent(promises: seq<Promise>): nat {
    if promises == [] then 0
    else NearSent(promises[..|promises| - 1]) + TransferTotal(promises[|promises| - 1].actions)
  }

  /** The amount of `token` that the `ft_transfer` calls among the actions move. */
  function FtTotal(actions: seq<Action>): nat {
    if actions == [] then 0
    else
      var last := actions[|actions| - 1];
      FtTotal(actions[..|actions| - 1])
      + if last.FunctionCall? && last.name == "ft_transfer" && last.args.FtTransferArgs?
        then last.args.amount else 0
  }

  function TokenSent(promises: seq<Promise>, token: AccountId): nat {
    if promises == [] then 0
    else
      var last := promises[|promises| - 1];
      TokenSent(promises[..|promises| - 1], token) + if last.receiver == token then FtTotal(last.actions) else 0
  }

  lemma {:induction false} PlainTransfers(actions: seq<Action>)
    requires forall i | 0 <= i < |actions| :: actions[i].Transfer?
    ensures TransferTotal(actions) == TotalDeposit(actions) && FtTotal(actions) == 0
  {
    if actions != [] {
      PlainTransfers(actions[..|actions| - 1]);
    }
  }

  lemma SingleCall(actions: seq<Action>)
    requires |actions| == 1 && actions[0].FunctionCall?
    ensures TransferTotal(actions) == 0
    ensures FtTotal(actions) ==
            if actions[0].name == "ft_transfer" && actions[0].args.FtTransferArgs? then actions[0].args.amount else 0
  {
    assert actions[..0] == [];
  }

  /** One promise moves the NEAR meter by the NEAR it sends and one token's meter by what it sends. */
  lemma PromiseMeter(g: SpendGrant, collection: AccountId, p: Promise)
    requires ChargePromise(g, collection, p).Some?
    ensures var g' := ChargePromise(g, collection, p).value;
            && g' == g.(spent := g.spent + TransferTotal(p.actions), tokens := g'.tokens)
            && g'.spent <= Max(g.spent, g.budget)
            && g'.tokens.Keys == g.tokens.Keys
            && (p.receiver !in g.tokens ==> FtTotal(p.actions) == 0)
            && forall t :: t in g.tokens ==>
                 && g'.tokens[t].budget == g.tokens[t].budget
                 && g'.tokens[t].spent == g.tokens[t].spent + (if t == p.receiver then FtTotal(p.actions) else 0)
                 && g'.tokens[t].spent <= Max(g.tokens[t].spent, g.tokens[t].budget)
  {
    if !HasCall(p.actions) {
      PlainTransfers(p.actions);
    } else {
      SingleCall(p.actions);
    }
  }

  /** A whole request moves each meter by exactly what it sends, never past the larger of meter and budget. */
  lemma {:induction false} RequestMeter(g: SpendGrant, collection: AccountId, promises: seq<Promise>)
    requires ChargeAll(g, collection, promises).Some?
    ensures var g' := ChargeAll(g, collection, promises).value;
            && g' == g.(spent := g.spent + NearSent(promises), tokens := g'.tokens)
            && g'.spent <= Max(g.spent, g.budget)
            && g'.tokens.Keys == g.tokens.Keys
            && forall t :: t in g.tokens ==>
                 && g'.tokens[t].budget == g.tokens[t].budget
                 && g'.tokens[t].spent == g.tokens[t].spent + TokenSent(promises, t)
                 && g'.tokens[t].spent <= Max(g.tokens[t].spent, g.tokens[t].budget)
  {
    if promises != [] {
      var before := promises[..|promises| - 1];
      RequestMeter(g, collection, before);
      PromiseMeter(ChargeAll(g, collection, before).value, collection, promises[|promises| - 1]);
    }
  }

  /** A token the grant does not list does not move at all. */
  lemma {:induction false} UnlistedTokenStays(g: SpendGrant, collection: AccountId, promises: seq<Promise>, t: AccountId)
    requires ChargeAll(g, collection, promises).Some? && t !in g.tokens
    ensures TokenSent(promises, t) == 0
  {
    if promises != [] {
      var before := promises[..|promises| - 1];
      UnlistedTokenStays(g, collection, before, t);
      RequestMeter(g, collection, before);
      PromiseMeter(ChargeAll(g, collection, before).value, collection, promises[|promises| - 1]);
    }
  }

  // ---------------------------------------------------------------- one step

  /** What the grantee `e` moves in one step. */
  function NearMoved(w: Wallet, step: Step, e: AccountId): nat {
    if step.call.ExecuteExtension? && step.ctx.caller == e && Succeeds(w, step)
    then NearSent(step.call.request.external) else 0
  }

  function TokenMoved(w: Wallet, step: Step, e: AccountId, t: AccountId): nat {
    if step.call.ExecuteExtension? && step.ctx.caller == e && Succeeds(w, step)
    then TokenSent(step.call.request.external, t) else 0
  }

  lemma {:induction false} GranteeCannotEdit(w: Wallet, now: nat, actor: AccountId, ops: seq<WalletOp>)
    requires Sound(w) && actor in w.grants && ops != []
    ensures ExecuteOps(w, now, actor, ops).None?
  {
    if |ops| > 1 {
      GranteeCannotEdit(w, now, actor, ops[..|ops| - 1]);
    } else {
      assert ops[..0] == [];
    }
  }

  lemma RequestStep(w: Wallet, ctx: Ctx, r: Request, e: AccountId)
    requires Sound(w) && e in w.grants && Execute(w, ctx, r).Some?
    requires e in Execute(w, ctx, r).value.grants
    ensures var g' := Execute(w, ctx, r).value.grants[e];
            if ctx.caller == e && r.external != [] then
              ChargeAll(w.grants[e], w.collection, r.external) == Some(g')
            else g' == w.grants[e]
  {
    OpsKeepSound(w, ctx.now, ctx.caller, r.internal);
    if ctx.caller == e && r.internal != [] {
      GranteeCannotEdit(w, ctx.now, e, r.internal);
    }
  }

  lemma {:induction false} TokenBudgetsCarrySpend(tokens: seq<TokenAllowance>, held: Option<SpendGrant>, w: Wallet)
    requires TokenBudgets(tokens, held, w).Some?
    ensures var b := TokenBudgets(tokens, held, w).value;
            forall t :: t in b ==> b[t].spent == HeldTokenSpend(held, t)
  {
    if tokens != [] {
      TokenBudgetsCarrySpend(tokens[..|tokens| - 1], held, w);
    }
  }

  /** While a grant lives on, a step moves its NEAR meter by exactly what the grantee sent. */
  lemma NearMeterStep(w: Wallet, step: Step, e: AccountId)
    requires Sound(w) && e in w.grants && e in Next(w, step).grants
    ensures var g, g' := w.grants[e], Next(w, step).grants[e];
            && g'.spent == g.spent + NearMoved(w, step, e)
            && g'.spent <= Max(g.spent, g.budget)
  {
    if Succeeds(w, step) {
      match step.call {
        case ExecuteExtension(r) =>
          RequestStep(w, step.ctx, r, e);
          if step.ctx.caller == e && r.external != [] {
            RequestMeter(w.grants[e], w.collection, r.external);
          }
        case _ =>
      }
    }
  }

  lemma TokenMeterStep(w: Wallet, step: Step, e: AccountId, t: AccountId)
    requires Sound(w) && e in w.grants && e in Next(w, step).grants && t in Next(w, step).grants[e].tokens
    ensures var g, g' := w.grants[e], Next(w, step).grants[e];
            if t in g.tokens then
              && g'.tokens[t].spent == g.tokens[t].spent + TokenMoved(w, step, e, t)
              && g'.tokens[t].spent <= Max(g.tokens[t].spent, g.tokens[t].budget)
            else g'.tokens[t].spent == 0
  {
    if Succeeds(w, step) {
      match step.call {
        case ExecuteExtension(r) =>
          RequestStep(w, step.ctx, r, e);
          if step.ctx.caller == e && r.external != [] {
            RequestMeter(w.grants[e], w.collection, r.external);
          }
        case GrantSpend(extension, _, _, tokens, _, _) =>
          TokenBudgetsCarrySpend(tokens, HeldGrant(w, extension), w);
        case _ =>
      }
    }
  }

  /** A grant that appears starts with a clean meter. */
  lemma FreshGrant(w: Wallet, step: Step, e: AccountId)
    requires Sound(w) && e !in w.grants && e in Next(w, step).grants
    ensures Next(w, step).grants[e].spent == 0
    ensures forall t :: t in Next(w, step).grants[e].tokens ==> Next(w, step).grants[e].tokens[t].spent == 0
  {
    match step.call {
      case ExecuteExtension(r) => OpsKeepSound(w, step.ctx.now, step.ctx.caller, r.internal);
      case GrantSpend(extension, _, _, tokens, _, _) =>
        TokenBudgetsCarrySpend(tokens, HeldGrant(w, extension), w);
      case _ =>
    }
  }

  // ---------------------------------------------------------------- whole runs

  ghost predicate Granted(w: Wallet, e: AccountId) {
    e in w.grants
  }

  ghost predicate Listed(w: Wallet, e: AccountId, t: AccountId) {
    e in w.grants && t in w.grants[e].tokens
  }

  /** NEAR the grantee moved since the grant now held was created; re-grants do not reset it. */
  ghost function NearSince(ws: seq<Wallet>, steps: seq<Step>, e: AccountId, i: nat): nat
    requires |ws| == |steps| + 1 && i < |ws|
  {
    if i == 0 || !Granted(ws[i - 1], e) then 0
    else NearSince(ws, steps, e, i - 1) + NearMoved(ws[i - 1], steps[i - 1], e)
  }

  /** The largest NEAR budget written into the grant since it was created. */
  ghost function PeakBudget(ws: seq<Wallet>, e: AccountId, i: nat): nat
    requires i < |ws| && Granted(ws[i], e)
  {
    var now := ws[i].grants[e].budget;
    if i == 0 || !Granted(ws[i - 1], e) then now else Max(PeakBudget(ws, e, i - 1), now)
  }

  ghost function TokenSince(ws: seq<Wallet>, steps: seq<Step>, e: AccountId, t: AccountId, i: nat): nat
    requires |ws| == |steps| + 1 && i < |ws|
  {
    if i == 0 || !Listed(ws[i - 1], e, t) then 0
    else TokenSince(ws, steps, e, t, i - 1) + TokenMoved(ws[i - 1], steps[i - 1], e, t)
  }

  ghost function PeakTokenBudget(ws: seq<Wallet>, e: AccountId, t: AccountId, i: nat): nat
    requires i < |ws| && Listed(ws[i], e, t)
  {
    var now := ws[i].grants[e].tokens[t].budget;
    if i == 0 || !Listed(ws[i - 1], e, t) then now else Max(PeakTokenBudget(ws, e, t, i - 1), now)
  }

  /**
   The NEAR meter: while a grant lives, across any re-grants and any number of requests, what
   is recorded as spent is exactly what the grantee sent by plain transfers, and it never
   exceeds the largest budget the owner ever wrote into that grant.
   */
  lemma {:induction false} NearMeter(start: nat, ws: seq<Wallet>, steps: seq<Step>, e: AccountId, i: nat)
    requires Run(start, ws, steps) && i < |ws| && Granted(ws[i], e)
    ensures ws[i].grants[e].spent == NearSince(ws, steps, e, i)
    ensures NearSince(ws, steps, e, i) <= PeakBudget(ws, e, i)
  {
    RunsAreSound(start, ws, steps, i - 1);
    if Granted(ws[i - 1], e) {
      NearMeter(start, ws, steps, e, i - 1);
      NearMeterStep(ws[i - 1], steps[i - 1], e);
    } else {
      FreshGrant(ws[i - 1], steps[i - 1], e);
    }
  }

  /** The same for each token, for as long as every re-grant keeps listing it. */
  lemma {:induction false} TokenMeter(start: nat, ws: seq<Wallet>, steps: seq<Step>, e: AccountId, t: AccountId, i: nat)
    requires Run(start, ws, steps) && i < |ws| && Listed(ws[i], e, t)
    ensures ws[i].grants[e].tokens[t].spent == TokenSince(ws, steps, e, t, i)
    ensures TokenSince(ws, steps, e, t, i) <= PeakTokenBudget(ws, e, t, i)
  {
    RunsAreSound(start, ws, steps, i - 1);
    if !Granted(ws[i - 1], e) {
      FreshGrant(ws[i - 1], steps[i - 1], e);
    } else {
      TokenMeterStep(ws[i - 1], steps[i - 1], e, t);
      if Listed(ws[i - 1], e, t) {
        TokenMeter(start, ws, steps, e, t, i - 1);
      }
    }
  }

  /** An accepted request leaves at least the storage reserve behind, whoever sent it. */
  lemma ReserveKept(start: nat, ws: seq<Wallet>, steps: seq<Step>, i: nat)
    requires Run(start, ws, steps) && i < |steps|
    requires steps[i].call.ExecuteExtension? && steps[i].call.request.external != []
    requires Succeeds(ws[i], steps[i])
    ensures SatSub(steps[i].ctx.balance, RequestDeposit(steps[i].call.request.external)) >= steps[i].ctx.reserve
    ensures steps[i].ctx.reserve > 0 ==> RequestDeposit(steps[i].call.request.external) + steps[i].ctx.reserve <= steps[i].ctx.balance
    ensures steps[i].ctx.caller != ws[i].authority
  {
    RunsAreSound(start, ws, steps, i);
    OpsKeepSound(ws[i], steps[i].ctx.now, steps[i].ctx.caller, steps[i].call.request.internal);
  }
}
