/**
 How long the lease authority can hold a wallet frozen: at most seven days out of any fourteen,
 however freezes, early unfreezes, owner freezes and rotations are mixed.
 */
module WalletFreeze {
  import opened Common
  import opened WalletModel
  import opened WalletRuns

  const HOLD: nat := MAX_AUTHORITY_HOLD_NS

  predicate AuthorityFreezes(w: Wallet, step: Step) {
    step.call.Freeze? && step.ctx.caller == w.authority && Succeeds(w, step)
  }

  lemma FreezeStep(w: Wallet, step: Step)
    requires Sound(w)
    ensures var w' := Next(w, step);
            if AuthorityFreezes(w, step) then
              && w'.frozen.AuthorityFrozen?
              && w'.authorityFreezeUntil == step.ctx.now + HOLD
              && step.ctx.now >= w.authorityFreezeUntil + HOLD
            else
              && w'.authorityFreezeUntil == w.authorityFreezeUntil
              && (w'.frozen.AuthorityFrozen? ==> w.frozen.AuthorityFrozen?)
  {
    if step.call.ExecuteExtension? && Succeeds(w, step) {
      ExecuteKeepsSound(w, step.ctx, step.call.request);
    }
  }

  /** A recorded authority freeze was started by one authority call, and ends seven days after it. */
  lemma {:induction false} FreezeOrigin(start: nat, ws: seq<Wallet>, steps: seq<Step>, i: nat) returns (j: nat)
    requires Run(start, ws, steps) && i < |ws| && ws[i].frozen.AuthorityFrozen?
    ensures j < i && AuthorityFreezes(ws[j], steps[j])
    ensures ws[i].authorityFreezeUntil == steps[j].ctx.now + HOLD
  {
    RunsAreSound(start, ws, steps, i - 1);
    FreezeStep(ws[i - 1], steps[i - 1]);
    if AuthorityFreezes(ws[i - 1], steps[i - 1]) {
      j := i - 1;
    } else {
      j := FreezeOrigin(start, ws, steps, i - 1);
    }
  }

  lemma {:induction false} FreezeUntilGrows(start: nat, ws: seq<Wallet>, steps: seq<Step>, i: nat, k: nat)
    requires Run(start, ws, steps) && i <= k < |ws|
    ensures ws[i].authorityFreezeUntil <= ws[k].authorityFreezeUntil
  {
    if i < k {
      FreezeUntilGrows(start, ws, steps, i, k - 1);
      RunsAreSound(start, ws, steps, k - 1);
      FreezeStep(ws[k - 1], steps[k - 1]);
    }
  }

  /** Two authority freezes start at least fourteen days apart. */
  lemma FreezesFarApart(start: nat, ws: seq<Wallet>, steps: seq<Step>, j: nat, k: nat)
    requires Run(start, ws, steps) && j < k < |steps|
    requires AuthorityFreezes(ws[j], steps[j]) && AuthorityFreezes(ws[k], steps[k])
    ensures steps[k].ctx.now >= steps[j].ctx.now + 2 * HOLD
  {
    RunsAreSound(start, ws, steps, j);
    RunsAreSound(start, ws, steps, k);
    FreezeStep(ws[j], steps[j]);
    FreezeStep(ws[k], steps[k]);
    FreezeUntilGrows(start, ws, steps, j + 1, k);
  }

  /** `ws[i]` is a state of the wallet at instant `p`; between two calls the state stands. */
  ghost predicate InForce(start: nat, steps: seq<Step>, i: nat, p: int)
    requires i <= |steps|
  {
    && (if i == 0 then start else steps[i - 1].ctx.now) <= p
    && (i < |steps| ==> p <= steps[i].ctx.now)
  }

  /** The state after `i` steps is in force at `p` and frozen by the authority then. */
  ghost predicate HeldIn(start: nat, ws: seq<Wallet>, steps: seq<Step>, i: nat, p: int)
    requires i < |ws| == |steps| + 1
  {
    p >= 0 && InForce(start, steps, i, p) && EffectiveFrozen(ws[i], p).AuthorityFrozen?
  }

  ghost predicate HeldAt(start: nat, ws: seq<Wallet>, steps: seq<Step>, p: int)
    requires |ws| == |steps| + 1
  {
    exists i: nat :: i < |ws| && HeldIn(start, ws, steps, i, p)
  }

  lemma HeldInByFreeze(start: nat, ws: seq<Wallet>, steps: seq<Step>, i: nat, p: int) returns (j: nat)
    requires Run(start, ws, steps) && i < |ws| && HeldIn(start, ws, steps, i, p)
    ensures j < |steps| && AuthorityFreezes(ws[j], steps[j])
    ensures steps[j].ctx.now <= p < steps[j].ctx.now + HOLD
  {
    j := FreezeOrigin(start, ws, steps, i);
    assert steps[j].ctx.now <= steps[i - 1].ctx.now;
  }

  /** Every held instant lies within seven days of the freeze that caused it. */
  lemma HeldByFreeze(start: nat, ws: seq<Wallet>, steps: seq<Step>, p: int) returns (j: nat)
    requires Run(start, ws, steps) && HeldAt(start, ws, steps, p)
    ensures j < |steps| && AuthorityFreezes(ws[j], steps[j])
    ensures steps[j].ctx.now <= p < steps[j].ctx.now + HOLD
  {
    var i: nat :| i < |ws| && HeldIn(start, ws, steps, i, p);
    j := HeldInByFreeze(start, ws, steps, i, p);
  }

  lemma NotHeldSevenDaysOn(start: nat, ws: seq<Wallet>, steps: seq<Step>, p: int)
    requires Run(start, ws, steps) && HeldAt(start, ws, steps, p)
    ensures !HeldAt(start, ws, steps, p + HOLD)
  {
    if HeldAt(start, ws, steps, p + HOLD) {
      var j := HeldByFreeze(start, ws, steps, p);
      var k := HeldByFreeze(start, ws, steps, p + HOLD);
      if j < k {
        FreezesFarApart(start, ws, steps, j, k);
      } else if k < j {
        FreezesFarApart(start, ws, steps, k, j);
      }
    }
  }

  ghost function HeldInstants(start: nat, ws: seq<Wallet>, steps: seq<Step>, lo: int, hi: int): set<int>
    requires |ws| == |steps| + 1 && lo <= hi
  {
    set p | p in Range(lo, hi) && HeldAt(start, ws, steps, p)
  }

  /**
   Freeze density: of the instants of any fourteen-day window, at most seven days' worth find
   the wallet frozen by the authority.
   */
  lemma FreezeDensity(start: nat, ws: seq<Wallet>, steps: seq<Step>, a: int)
    requires Run(start, ws, steps)
    ensures |HeldInstants(start, ws, steps, a, a + 2 * HOLD)| <= HOLD
  {
    var held := HeldInstants(start, ws, steps, a, a + 2 * HOLD);
    forall p | p in held
      ensures p + HOLD !in held
    {
      NotHeldSevenDaysOn(start, ws, steps, p);
    }
    HalfFull(held, a, HOLD);
  }
}
