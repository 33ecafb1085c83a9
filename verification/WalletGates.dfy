/** What stops a tenant: a freeze in force, a parked wallet, an ended lease; and what a rotation takes away. */
module WalletGates {
  import opened Common
  import opened WalletModel
  import opened WalletRuns
  import opened WalletFreeze
  import opened WalletFence

  /** The tenant's powers: sending anything, editing the extensions as owner, granting. */
  predicate UsesWallet(w: Wallet, step: Step) {
    || Sends(w, step)
    || (step.call.ExecuteExtension? && step.call.request.internal != [] && step.ctx.caller != w.authority && Succeeds(w, step))
    || (step.call.GrantSpend? && Succeeds(w, step))
  }

  lemma {:induction false} EditsNeedTenant(w: Wallet, now: nat, actor: AccountId, ops: seq<WalletOp>)
    requires ExecuteOps(w, now, actor, ops).Some?
    ensures var w' := ExecuteOps(w, now, actor, ops).value;
            && w'.frozen == w.frozen && w'.authorityFreezeUntil == w.authorityFreezeUntil
            && w'.state == w.state && w'.leaseUntil == w.leaseUntil && w'.authority == w.authority
            && (ops != [] && actor != w.authority ==> RenterActive(w, now))
  {
    if ops != [] {
      EditsNeedTenant(w, now, actor, ops[..|ops| - 1]);
    }
  }

  /** Whoever uses the wallet does so on a running lease, unparked and unfrozen. */
  lemma UseNeedsTenant(w: Wallet, step: Step)
    requires UsesWallet(w, step)
    ensures step.ctx.now < w.leaseUntil && w.state.Active?
    ensures w.frozen.Unfrozen? || (w.frozen.AuthorityFrozen? && step.ctx.now >= w.authorityFreezeUntil)
  {
    if step.call.ExecuteExtension? {
      EditsNeedTenant(w, step.ctx.now, step.ctx.caller, step.call.request.internal);
    }
  }

  /** And that is all it takes: the owner's promises pass exactly on a running lease, unparked, unfrozen, within the balance. */
  lemma OwnersSendIff(w: Wallet, step: Step)
    requires Sound(w) && step.call.ExecuteExtension? && step.ctx.caller == w.owner
    requires step.call.request.internal == [] && step.call.request.external != []
    ensures Succeeds(w, step) <==>
              && step.ctx.deposit > 0 && w.owner in w.extensions
              && step.ctx.now < w.leaseUntil && w.state.Active?
              && (w.frozen.Unfrozen? || (w.frozen.AuthorityFrozen? && step.ctx.now >= w.authorityFreezeUntil))
              && RequestDeposit(step.call.request.external) <= MAX_U128
              && SatSub(step.ctx.balance, RequestDeposit(step.call.request.external)) >= step.ctx.reserve
              && forall k :: 0 <= k < |step.call.request.external| ==> step.call.request.external[k].receiver != w.account
  {
  }

  /** An ended lease stops the tenant. */
  lemma EndedLeasesStopTheTenant(w: Wallet, step: Step)
    requires step.ctx.now >= w.leaseUntil
    ensures !UsesWallet(w, step)
  {
    if UsesWallet(w, step) {
      UseNeedsTenant(w, step);
    }
  }

  // ---------------------------------------------------------------- freezes

  predicate Freezes(w: Wallet, step: Step) {
    step.call.Freeze? && Succeeds(w, step)
  }

  predicate Unfreezes(w: Wallet, step: Step) {
    step.call.Unfreeze? && Succeeds(w, step)
  }

  lemma FreezeTakes(w: Wallet, step: Step)
    requires Freezes(w, step)
    ensures var w' := Next(w, step);
            if step.ctx.caller == w.authority then w'.frozen.AuthorityFrozen? && w'.authorityFreezeUntil == step.ctx.now + HOLD
            else w'.frozen.SelfFrozen? && step.ctx.caller == w.owner
  {
  }

  /** A freeze not lifted and not run out outlasts every step; the owner's own only as long as the owner. */
  lemma FreezeStays(w: Wallet, step: Step)
    requires !Unfreezes(w, step)
    ensures var w' := Next(w, step);
            && (w.frozen.AuthorityFrozen? && step.ctx.now < w.authorityFreezeUntil ==>
                  w'.frozen.AuthorityFrozen? && w'.authorityFreezeUntil == w.authorityFreezeUntil)
            && (w.frozen.SelfFrozen? && w'.owner == w.owner ==> w'.frozen.SelfFrozen?)
  {
    if step.call.ExecuteExtension? && ExecuteOps(w, step.ctx.now, step.ctx.caller, step.call.request.internal).Some? {
      EditsNeedTenant(w, step.ctx.now, step.ctx.caller, step.call.request.internal);
    }
  }

  /** Step `j` froze the wallet and nobody has lifted that before step `i`. */
  ghost predicate Standing(ws: seq<Wallet>, steps: seq<Step>, j: nat, i: nat)
    requires |ws| == |steps| + 1 && i <= |steps|
  {
    && j < i && Freezes(ws[j], steps[j])
    && forall k :: j < k < i ==> !Unfreezes(ws[k], steps[k])
  }

  lemma {:induction false} AuthorityFreezeStands(start: nat, ws: seq<Wallet>, steps: seq<Step>, j: nat, i: nat)
    requires Run(start, ws, steps) && i < |steps| && Standing(ws, steps, j, i)
    requires steps[j].ctx.caller == ws[j].authority && steps[i].ctx.now < steps[j].ctx.now + HOLD
    ensures ws[i].frozen.AuthorityFrozen? && ws[i].authorityFreezeUntil == steps[j].ctx.now + HOLD
    decreases i
  {
    assert ws[i - 1 + 1] == Next(ws[i - 1], steps[i - 1]);
    if j + 1 < i {
      assert steps[i - 1].ctx.now <= steps[i].ctx.now;
      AuthorityFreezeStands(start, ws, steps, j, i - 1);
      FreezeStays(ws[i - 1], steps[i - 1]);
    } else {
      FreezeTakes(ws[j], steps[j]);
    }
  }

  lemma {:induction false} OwnerFreezeStands(start: nat, ws: seq<Wallet>, steps: seq<Step>, j: nat, i: nat)
    requires Run(start, ws, steps) && i <= |steps| && Standing(ws, steps, j, i)
    requires steps[j].ctx.caller != ws[j].authority && forall k :: j <= k <= i ==> ws[k].owner == ws[j].owner
    ensures ws[i].frozen.SelfFrozen?
    decreases i
  {
    assert ws[i - 1 + 1] == Next(ws[i - 1], steps[i - 1]);
    if j + 1 < i {
      OwnerFreezeStands(start, ws, steps, j, i - 1);
      FreezeStays(ws[i - 1], steps[i - 1]);
    } else {
      FreezeTakes(ws[j], steps[j]);
    }
  }

  /**
   A freeze stops the tenant: from an accepted freeze on, until it is lifted, and for the authority's
   until seven days are over, for the owner's while that owner holds the wallet, nothing is sent, no
   extension is edited by anyone but the authority and nothing is granted.
   */
  lemma FreezesStopTheTenant(start: nat, ws: seq<Wallet>, steps: seq<Step>, j: nat, i: nat)
    requires Run(start, ws, steps) && i < |steps| && Standing(ws, steps, j, i)
    requires if steps[j].ctx.caller == ws[j].authority then steps[i].ctx.now < steps[j].ctx.now + HOLD
             else forall k :: j <= k <= i ==> ws[k].owner == ws[j].owner
    ensures !UsesWallet(ws[i], steps[i])
  {
    if steps[j].ctx.caller == ws[j].authority {
      AuthorityFreezeStands(start, ws, steps, j, i);
    } else {
      OwnerFreezeStands(start, ws, steps, j, i);
    }
    if UsesWallet(ws[i], steps[i]) {
      UseNeedsTenant(ws[i], steps[i]);
    }
  }

  /** A freeze is lifted only by the side that made it. */
  lemma FreezesAreLiftedByTheirMaker(start: nat, ws: seq<Wallet>, steps: seq<Step>, i: nat)
    requires Run(start, ws, steps) && i < |steps| && Unfreezes(ws[i], steps[i])
    ensures if ws[i].frozen.AuthorityFrozen? then steps[i].ctx.caller == ws[i].authority
            else ws[i].frozen.SelfFrozen? && steps[i].ctx.caller == ws[i].owner
    ensures ws[i + 1] == ws[i].(frozen := Unfrozen)
  {
    RunsAreSound(start, ws, steps, i);
    assert ws[i + 1] == Next(ws[i], steps[i]);
  }

  // ---------------------------------------------------------------- parking

  predicate Parks(w: Wallet, step: Step) {
    step.call.TransferOwnership? && step.call.cause.Reclaim? && Succeeds(w, step)
  }

  /** The lease is set anew or the wallet rented again. */
  predicate Reopens(w: Wallet, step: Step) {
    (step.call.SetLease? || step.call.ReRent?) && Succeeds(w, step)
  }

  lemma ParkStays(w: Wallet, step: Step)
    requires (w.state.Parked? && !Reopens(w, step)) || Parks(w, step)
    ensures Next(w, step).state.Parked?
  {
    if step.call.ExecuteExtension? && ExecuteOps(w, step.ctx.now, step.ctx.caller, step.call.request.internal).Some? {
      EditsNeedTenant(w, step.ctx.now, step.ctx.caller, step.call.request.internal);
    }
  }

  lemma {:induction false} StaysParked(start: nat, ws: seq<Wallet>, steps: seq<Step>, j: nat, i: nat)
    requires Run(start, ws, steps) && j < i <= |steps| && Parks(ws[j], steps[j])
    requires forall k :: j < k < i ==> !Reopens(ws[k], steps[k])
    ensures ws[i].state.Parked?
    decreases i
  {
    assert ws[i - 1 + 1] == Next(ws[i - 1], steps[i - 1]);
    if j + 1 < i {
      StaysParked(start, ws, steps, j, i - 1);
    }
    ParkStays(ws[i - 1], steps[i - 1]);
  }

  /** A reclaimed wallet does nothing for its old tenant until it is leased again. */
  lemma ParkedWalletsStandStill(start: nat, ws: seq<Wallet>, steps: seq<Step>, j: nat, i: nat)
    requires Run(start, ws, steps) && j < i < |steps| && Parks(ws[j], steps[j])
    requires forall k :: j < k < i ==> !Reopens(ws[k], steps[k])
    ensures !UsesWallet(ws[i], steps[i])
  {
    StaysParked(start, ws, steps, j, i);
    if UsesWallet(ws[i], steps[i]) {
      UseNeedsTenant(ws[i], steps[i]);
    }
  }

  // ---------------------------------------------------------------- rotations

  predicate Rotates(w: Wallet, step: Step) {
    IsRotation(step) && Succeeds(w, step)
  }

  /** The account a rotation hands the wallet to; none when it only parks it. */
  function HandedTo(step: Step): Option<AccountId>
    requires IsRotation(step)
  {
    if step.call.ReRent? then Some(step.call.tenant) else step.call.to
  }

  function CauseOf(step: Step): RotationCause
    requires IsRotation(step)
  {
    if step.call.ReRent? then RotationCause.ReRent else step.call.cause
  }

  /** Why a rotation was allowed: a holder asked, the lease had ended, or the last rotation is being undone in time. */
  lemma RotationsNeedGrounds(start: nat, ws: seq<Wallet>, steps: seq<Step>, i: nat)
    requires Run(start, ws, steps) && i < |steps| && Rotates(ws[i], steps[i])
    ensures steps[i].ctx.caller == ws[i].authority && steps[i].ctx.deposit == 1
    ensures HandedTo(steps[i]) != Some(ws[i].authority) && HandedTo(steps[i]) != Some(ws[i].account)
    ensures match CauseOf(steps[i])
            case Reclaim => steps[i].ctx.now >= ws[i].leaseUntil
            case ReRent => steps[i].ctx.now >= ws[i].leaseUntil
            case Revert => HandedTo(steps[i]).Some? && HandedTo(steps[i]) == ws[i].revertTo && steps[i].ctx.now < ws[i].revertUntil
            case Recovery => !ws[i].frozen.SelfFrozen?
            case _ => exists h :: steps[i].call.askedBy == Some(h) && h in ws[i].extensions && h != ws[i].authority
  {
    RunsAreSound(start, ws, steps, i);
  }

  /** A rotation leaves the authority and the new owner, and nobody else, with a say; no grant survives. */
  lemma RotationsClearTheDeck(start: nat, ws: seq<Wallet>, steps: seq<Step>, i: nat)
    requires Run(start, ws, steps) && i < |steps| && Rotates(ws[i], steps[i])
    ensures ws[i + 1].extensions == {ws[i].authority} + (if HandedTo(steps[i]).Some? then {HandedTo(steps[i]).value} else {})
    ensures ws[i + 1].grants == map[]
    ensures HandedTo(steps[i]).Some? ==> ws[i + 1].owner == HandedTo(steps[i]).value
  {
    RunsAreSound(start, ws, steps, i);
    assert ws[i + 1] == Next(ws[i], steps[i]);
  }

  predicate Adds(w: Wallet, step: Step, e: AccountId) {
    step.call.ExecuteExtension? && AddExtension(e) in step.call.request.internal && Succeeds(w, step)
  }

  lemma {:induction false} EditsAdd(w: Wallet, now: nat, actor: AccountId, ops: seq<WalletOp>, e: AccountId)
    requires ExecuteOps(w, now, actor, ops).Some? && e in ExecuteOps(w, now, actor, ops).value.extensions && e !in w.extensions
    ensures AddExtension(e) in ops
    ensures if actor == w.authority then now >= w.leaseUntil else actor == w.owner
  {
    var last := |ops| - 1;
    EditorStays(w, now, actor, ops[..last]);
    if e in ExecuteOps(w, now, actor, ops[..last]).value.extensions {
      EditsAdd(w, now, actor, ops[..last], e);
    } else {
      assert ops[last] == AddExtension(e);
    }
  }

  lemma {:induction false} EditorStays(w: Wallet, now: nat, actor: AccountId, ops: seq<WalletOp>)
    requires ExecuteOps(w, now, actor, ops).Some?
    ensures var w' := ExecuteOps(w, now, actor, ops).value;
            w'.owner == w.owner && w'.authority == w.authority && w'.leaseUntil == w.leaseUntil
  {
    if ops != [] {
      EditorStays(w, now, actor, ops[..|ops| - 1]);
    }
  }

  lemma IntoExtensions(w: Wallet, step: Step, e: AccountId)
    requires e in Next(w, step).extensions && e !in w.extensions && !Rotates(w, step)
    ensures Adds(w, step, e)
    ensures if step.ctx.caller == w.authority then step.ctx.now >= w.leaseUntil else step.ctx.caller == w.owner
  {
    if step.call.ExecuteExtension? {
      EditsAdd(w, step.ctx.now, step.ctx.caller, step.call.request.internal, e);
    }
  }

  /**
   After a rotation every extension but the authority and the new owner was added since, by the owner
   or, past the lease, by the authority: co-owners of an earlier tenant keep nothing.
   */
  lemma {:induction false} CoOwnersAreNew(start: nat, ws: seq<Wallet>, steps: seq<Step>, j: nat, i: nat, e: AccountId) returns (k: nat)
    requires Run(start, ws, steps) && j < i <= |steps| && Rotates(ws[j], steps[j])
    requires forall m :: j < m < i ==> !Rotates(ws[m], steps[m])
    requires e in ws[i].extensions && e != ws[j].authority && HandedTo(steps[j]) != Some(e)
    ensures j < k < i && Adds(ws[k], steps[k], e)
    ensures if steps[k].ctx.caller == ws[k].authority then steps[k].ctx.now >= ws[k].leaseUntil else steps[k].ctx.caller == ws[k].owner
    decreases i
  {
    assert ws[i - 1 + 1] == Next(ws[i - 1], steps[i - 1]);
    if j + 1 == i {
      RotationsClearTheDeck(start, ws, steps, j);
    } else if e in ws[i - 1].extensions {
      k := CoOwnersAreNew(start, ws, steps, j, i - 1, e);
    } else {
      IntoExtensions(ws[i - 1], steps[i - 1], e);
      k := i - 1;
    }
  }
}
