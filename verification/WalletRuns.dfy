/**
 What every run of the tenant wallet keeps: who can hold it, the notice a lease ends with, and
 that a revert undoes exactly one rotation.
 */
module WalletRuns {
  import opened Common
  import opened WalletModel

  datatype Step = Step(ctx: Ctx, call: Call)

  /**
   A run: `ws[0]` comes out of `hos_init` at `start`, `ws[i + 1]` is what step `i` makes of
   `ws[i]`, and the clock never goes back. A rejected call is a step that changes nothing.
   */
  ghost predicate Run(start: nat, ws: seq<Wallet>, steps: seq<Step>) {
    && |ws| == |steps| + 1
    && Created(start, ws[0])
    && Clock(start, steps)
    && forall i :: 0 <= i < |steps| ==> ws[i + 1] == Next(ws[i], steps[i])
  }

  ghost predicate Created(start: nat, w: Wallet) {
    exists account: AccountId, ctx: Ctx, config: Config :: ctx.now == start && Init(account, ctx, config) == Some(w)
  }

  ghost predicate Clock(start: nat, steps: seq<Step>) {
    && (forall i :: 0 <= i < |steps| ==> start <= steps[i].ctx.now)
    && (forall i, j :: 0 <= i < j < |steps| ==> steps[i].ctx.now <= steps[j].ctx.now)
  }

  function Next(w: Wallet, step: Step): Wallet {
    After(w, step.ctx, step.call)
  }

  predicate Succeeds(w: Wallet, step: Step) {
    Accepted(w, step.ctx, step.call)
  }

  // ---------------------------------------------------------------- the wallet invariant

  ghost predicate GrantSound(g: SpendGrant, account: AccountId, collection: AccountId) {
    && (forall t :: t in g.tokens ==> Grantable(t, account, collection))
    && (forall c :: c in g.items ==> Grantable(c, account, collection))
  }

  ghost predicate Sound(w: Wallet) {
    && w.authority in w.extensions
    && w.account !in w.extensions
    && w.owner != w.authority
    && w.owner != w.account
    && w.payout != w.account
    && (forall e :: e in w.grants ==> e in w.extensions && e != w.owner && e != w.authority)
    && (forall e :: e in w.grants ==> GrantSound(w.grants[e], w.account, w.collection))
  }

  lemma {:induction false} TokenBudgetsGrantable(tokens: seq<TokenAllowance>, held: Option<SpendGrant>, w: Wallet)
    ensures var b := TokenBudgets(tokens, held, w);
            b.Some? ==> forall t :: t in b.value ==> Grantable(t, w.account, w.collection)
  {
    if tokens != [] {
      TokenBudgetsGrantable(tokens[..|tokens| - 1], held, w);
    }
  }

  lemma {:induction false} ItemFencesGrantable(items: seq<ItemAllowance>, w: Wallet)
    ensures var f := ItemFences(items, w);
            f.Some? ==> forall c :: c in f.value ==> Grantable(c, w.account, w.collection)
  {
    if items != [] {
      ItemFencesGrantable(items[..|items| - 1], w);
    }
  }

  lemma {:induction false} ChargeAllKeepsNames(g: SpendGrant, collection: AccountId, promises: seq<Promise>)
    ensures var c := ChargeAll(g, collection, promises);
            c.Some? ==> c.value == g.(spent := c.value.spent, tokens := c.value.tokens)
                        && c.value.tokens.Keys == g.tokens.Keys
  {
    if promises != [] {
      ChargeAllKeepsNames(g, collection, promises[..|promises| - 1]);
    }
  }

  /** Editing extensions leaves everything but the extension set and evicted grants alone. */
  lemma {:induction false} OpsKeepSound(w: Wallet, now: nat, actor: AccountId, ops: seq<WalletOp>)
    requires Sound(w)
    ensures var r := ExecuteOps(w, now, actor, ops);
            r.Some? ==> Sound(r.value) && r.value == w.(extensions := r.value.extensions, grants := r.value.grants)
                        && forall e :: e in r.value.grants ==> e in w.grants && r.value.grants[e] == w.grants[e]
  {
    if ops != [] {
      OpsKeepSound(w, now, actor, ops[..|ops| - 1]);
    }
  }

  lemma ExecuteKeepsSound(w: Wallet, ctx: Ctx, r: Request)
    requires Sound(w)
    requires Execute(w, ctx, r).Some?
    ensures Sound(Execute(w, ctx, r).value)
    ensures var w' := Execute(w, ctx, r).value; w' == w.(extensions := w'.extensions, grants := w'.grants)
  {
    OpsKeepSound(w, ctx.now, ctx.caller, r.internal);
    var edited := ExecuteOps(w, ctx.now, ctx.caller, r.internal).value;
    if ctx.caller in edited.grants {
      ChargeAllKeepsNames(edited.grants[ctx.caller], edited.collection, r.external);
    }
  }

  lemma GrantKeepsSound(w: Wallet, ctx: Ctx, c: Call)
    requires Sound(w) && c.GrantSpend?
    ensures Grant(w, ctx, c).Some? ==> Sound(Grant(w, ctx, c).value)
  {
    TokenBudgetsGrantable(c.tokens, HeldGrant(w, c.extension), w);
    ItemFencesGrantable(c.items, w);
  }

  lemma StepKeepsSound(w: Wallet, step: Step)
    requires Sound(w)
    ensures Sound(Next(w, step))
    ensures Next(w, step).account == w.account && Next(w, step).authority == w.authority
    ensures Next(w, step).collection == w.collection
  {
    if Succeeds(w, step) {
      match step.call {
        case ExecuteExtension(r) => ExecuteKeepsSound(w, step.ctx, r);
        case GrantSpend(_, _, _, _, _, _) => GrantKeepsSound(w, step.ctx, step.call);
        case _ =>
      }
    }
  }

  /** The wallet invariant: it holds in every state of every run. */
  lemma {:induction false} RunsAreSound(start: nat, ws: seq<Wallet>, steps: seq<Step>, i: nat)
    requires Run(start, ws, steps) && i < |ws|
    ensures Sound(ws[i])
    ensures ws[i].account == ws[0].account && ws[i].authority == ws[0].authority
    ensures ws[i].collection == ws[0].collection
  {
    if i > 0 {
      RunsAreSound(start, ws, steps, i - 1);
      StepKeepsSound(ws[i - 1], steps[i - 1]);
    }
  }

  // ---------------------------------------------------------------- lease notice

  /** The calls the lease gates: taking the name back, handing it on, or emptying it. */
  predicate LeaseGated(w: Wallet, step: Step) {
    match step.call
    case TransferOwnership(_, cause, _) => cause.Reclaim?
    case ReRent(_, _, _) => true
    case SweepNear => true
    case SweepFt(_, _) => true
    case ExecuteExtension(r) => step.ctx.caller == w.authority && r.internal != []
    case _ => false
  }

  lemma {:induction false} OpsNeedEditor(w: Wallet, now: nat, actor: AccountId, ops: seq<WalletOp>)
    requires Sound(w) && actor == w.authority && !LeaseExpired(w, now) && ops != []
    ensures ExecuteOps(w, now, actor, ops).None?
  {
    var before := ops[..|ops| - 1];
    OpsKeepSound(w, now, actor, before);
    if before != [] {
      OpsNeedEditor(w, now, actor, before);
    }
  }

  lemma LeaseGateHolds(w: Wallet, step: Step)
    requires Sound(w) && LeaseGated(w, step) && Succeeds(w, step)
    ensures w.leaseUntil <= step.ctx.now
  {
    if step.call.ExecuteExtension? && !LeaseExpired(w, step.ctx.now) {
      OpsNeedEditor(w, step.ctx.now, step.ctx.caller, step.call.request.internal);
    }
  }

  lemma StepKeepsNotice(w: Wallet, step: Step, floor: int)
    requires Sound(w)
    requires floor <= w.leaseUntil
    requires floor <= step.ctx.now + MIN_LEASE_RETRACT_NOTICE_NS
    ensures floor <= Next(w, step).leaseUntil
  {
    if step.call.ExecuteExtension? && Succeeds(w, step) {
      ExecuteKeepsSound(w, step.ctx, step.call.request);
    }
  }

  lemma {:induction false} NoticeCarries(start: nat, ws: seq<Wallet>, steps: seq<Step>, i: nat, t: nat, k: nat)
    requires Run(start, ws, steps) && i <= k < |ws|
    requires i < |steps| ==> t <= steps[i].ctx.now
    ensures Min(ws[i].leaseUntil, t + MIN_LEASE_RETRACT_NOTICE_NS) <= ws[k].leaseUntil
  {
    if i < k {
      NoticeCarries(start, ws, steps, i, t, k - 1);
      RunsAreSound(start, ws, steps, k - 1);
      StepKeepsNotice(ws[k - 1], steps[k - 1], Min(ws[i].leaseUntil, t + MIN_LEASE_RETRACT_NOTICE_NS));
    }
  }

  /**
   Lease notice. Read the lease at instant `t`, when `ws[i]` is the state. Whatever the
   authority and anyone else does from there, no reclaim, re-rent, sweep or extension edit by
   the authority succeeds before the end of that lease or twelve hours from `t`.
   */
  lemma LeaseNotice(start: nat, ws: seq<Wallet>, steps: seq<Step>, i: nat, t: nat, k: nat)
    requires Run(start, ws, steps) && i <= k < |steps|
    requires t <= steps[i].ctx.now
    requires LeaseGated(ws[k], steps[k]) && Succeeds(ws[k], steps[k])
    ensures steps[k].ctx.now >= Min(ws[i].leaseUntil, t + MIN_LEASE_RETRACT_NOTICE_NS)
  {
    NoticeCarries(start, ws, steps, i, t, k);
    RunsAreSound(start, ws, steps, k);
    LeaseGateHolds(ws[k], steps[k]);
  }

  // ---------------------------------------------------------------- revert

  predicate IsRotation(step: Step) {
    step.call.TransferOwnership? || step.call.ReRent?
  }

  predicate IsRevert(step: Step) {
    step.call.TransferOwnership? && step.call.cause.Revert?
  }

  ghost predicate QuietBetween(ws: seq<Wallet>, steps: seq<Step>, j: nat, i: nat)
    requires |ws| == |steps| + 1 && i <= |steps|
  {
    forall k :: j <= k < i ==> !(IsRotation(steps[k]) && Succeeds(ws[k], steps[k]))
  }

  lemma OtherStepsKeepOwner(w: Wallet, step: Step)
    requires Sound(w)
    requires !(IsRotation(step) && Succeeds(w, step))
    ensures var w' := Next(w, step);
            w'.owner == w.owner && w'.revertTo == w.revertTo && w'.revertUntil == w.revertUntil
            && w'.rotationSeq == w.rotationSeq
  {
    if step.call.ExecuteExtension? && Succeeds(w, step) {
      ExecuteKeepsSound(w, step.ctx, step.call.request);
    }
  }

  /** The rotation a pinned revert target came from: the last one, and not itself a revert. */
  lemma {:induction false} RevertPin(start: nat, ws: seq<Wallet>, steps: seq<Step>, i: nat) returns (j: nat)
    requires Run(start, ws, steps) && i < |ws| && ws[i].revertTo.Some?
    ensures j < i
    ensures IsRotation(steps[j]) && !IsRevert(steps[j]) && Succeeds(ws[j], steps[j])
    ensures ws[i].revertTo == Some(ws[j].owner)
    ensures ws[i].revertUntil == steps[j].ctx.now + REVERT_WINDOW_NS
    ensures QuietBetween(ws, steps, j + 1, i)
  {
    RunsAreSound(start, ws, steps, i - 1);
    if IsRotation(steps[i - 1]) && Succeeds(ws[i - 1], steps[i - 1]) {
      j := i - 1;
    } else {
      OtherStepsKeepOwner(ws[i - 1], steps[i - 1]);
      j := RevertPin(start, ws, steps, i - 1);
    }
  }

  /**
   A successful revert gives the name back to the owner it had before the rotation immediately
   preceding it, within five minutes of that rotation. That rotation is not itself a revert, so
   no rotation is undone twice and no revert is undone.
   */
  lemma RevertUndoesLastRotation(start: nat, ws: seq<Wallet>, steps: seq<Step>, i: nat) returns (j: nat)
    requires Run(start, ws, steps) && i < |steps|
    requires IsRevert(steps[i]) && Succeeds(ws[i], steps[i])
    ensures j < i
    ensures IsRotation(steps[j]) && !IsRevert(steps[j]) && Succeeds(ws[j], steps[j])
    ensures QuietBetween(ws, steps, j + 1, i)
    ensures ws[i + 1].owner == ws[j].owner
    ensures ws[j].owner in ws[i + 1].extensions
    ensures steps[j].ctx.now <= steps[i].ctx.now < steps[j].ctx.now + REVERT_WINDOW_NS
  {
    j := RevertPin(start, ws, steps, i);
  }

  /** The rotation counter counts the accepted rotations, so nothing rotates a wallet unseen. */
  ghost function RotationsBefore(ws: seq<Wallet>, steps: seq<Step>, i: nat): nat
    requires |ws| == |steps| + 1 && i <= |steps|
  {
    if i == 0 then 0
    else RotationsBefore(ws, steps, i - 1)
         + if IsRotation(steps[i - 1]) && Succeeds(ws[i - 1], steps[i - 1]) then 1 else 0
  }

  lemma {:induction false} RotationSeqCounts(start: nat, ws: seq<Wallet>, steps: seq<Step>, i: nat)
    requires Run(start, ws, steps) && i < |ws|
    ensures ws[i].rotationSeq == RotationsBefore(ws, steps, i)
  {
    if i > 0 {
      RotationSeqCounts(start, ws, steps, i - 1);
      RunsAreSound(start, ws, steps, i - 1);
      if !(IsRotation(steps[i - 1]) && Succeeds(ws[i - 1], steps[i - 1])) {
        OtherStepsKeepOwner(ws[i - 1], steps[i - 1]);
      }
    }
  }
}
