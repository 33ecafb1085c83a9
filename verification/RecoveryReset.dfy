/**
 A wallet that changes hands starts over: its recovery policy is gone, and none comes back that the
 account itself did not arm.
 */
module RecoveryReset {
  import opened Common
  import opened Bytes
  import opened RecoveryMessages
  import opened RecoveryModel
  import opened RecoveryRuns

  predicate Transfers(s: State, ed: Ed25519, step: Step, a: Account) {
    step.call == WalletTransferred(a) && Succeeds(s, ed, step)
  }

  predicate Installs(s: State, ed: Ed25519, step: Step, a: Account) {
    step.call.Install? && step.call.account == a && Succeeds(s, ed, step)
  }

  /** The account itself armed this policy. */
  predicate Arms(s: State, ed: Ed25519, step: Step, a: Account, policy: ArmedPolicy) {
    && step.call.Arm? && step.ctx.caller == a && Succeeds(s, ed, step)
    && ArmedPolicy(step.call.attestationKey, step.call.timelockSecs) == policy
  }

  lemma TransferRemoves(s: State, ed: Ed25519, step: Step, a: Account)
    requires Transfers(s, ed, step, a)
    ensures (a in s.accounts && s.accounts[a].phase.Resolving?) || a !in Next(s, ed, step).accounts
    ensures RoundOf(Next(s, ed, step), a) == RoundOf(s, a)
  {
  }

  /** Without an entry, only an install makes one. */
  lemma NoEntryStays(s: State, ed: Ed25519, step: Step, a: Account)
    requires a !in s.accounts && !Installs(s, ed, step, a)
    ensures a !in Next(s, ed, step).accounts
  {
    Split(s, ed, step, a);
  }

  /** Without an entry, nothing that works on one is accepted. */
  lemma NoEntryNoWork(s: State, ed: Ed25519, step: Step, a: Account)
    requires a !in s.accounts && Subject(step.call) == Some(a)
    ensures !Succeeds(s, ed, step)
  {
    if Succeeds(s, ed, step) {
      Worked(s, ed, step, a);
    }
  }

  lemma {:induction false} GoneUntilInstalled(ed: Ed25519, ss: seq<State>, steps: seq<Step>, a: Account, d: nat, i: nat)
    requires Run(ed, ss, steps) && d < i <= |steps| && a !in ss[d + 1].accounts
    requires forall m {:trigger Installs(ss[m], ed, steps[m], a)} :: d < m < i ==> !Installs(ss[m], ed, steps[m], a)
    ensures a !in ss[i].accounts
    decreases i
  {
    if d + 1 < i {
      GoneUntilInstalled(ed, ss, steps, a, d, i - 1);
      NoEntryStays(ss[i - 1], ed, steps[i - 1], a);
    }
  }

  /** How an armed policy can come to stand by one step. */
  lemma IntoArmed(s: State, ed: Ed25519, step: Step, a: Account)
    requires a in Next(s, ed, step).armed
    ensures (a in s.armed && s.armed[a] == Next(s, ed, step).armed[a]) || Arms(s, ed, step, a, Next(s, ed, step).armed[a])
  {
  }

  lemma {:induction false} ArmedOrigin(ed: Ed25519, ss: seq<State>, steps: seq<Step>, a: Account, i: nat) returns (k: nat)
    requires Run(ed, ss, steps) && i <= |steps| && a in ss[i].armed
    ensures k < i && Arms(ss[k], ed, steps[k], a, ss[i].armed[a])
  {
    IntoArmed(ss[i - 1], ed, steps[i - 1], a);
    if Arms(ss[i - 1], ed, steps[i - 1], a, ss[i].armed[a]) {
      k := i - 1;
    } else {
      k := ArmedOrigin(ed, ss, steps, a, i - 1);
    }
  }

  lemma FreshInstallTakesArmed(s: State, ed: Ed25519, step: Step, a: Account)
    requires Installs(s, ed, step, a) && a !in s.accounts
    ensures a in s.armed && s.armed[a] == ArmedPolicy(step.call.attestationKey, step.call.timelockSecs)
    ensures var s' := Next(s, ed, step);
            && a !in s'.armed && a in s'.accounts && s'.accounts[a].phase.Idle?
            && s'.accounts[a].policy.attestationKey == step.call.attestationKey && s'.accounts[a].policy.timelockSecs == step.call.timelockSecs
            && s'.accounts[a].round == RoundOf(s, a)
  {
  }

  /** A first policy is one the account itself armed, key and timelock, and each arming serves one install. */
  lemma FirstPoliciesAreArmed(ed: Ed25519, ss: seq<State>, steps: seq<Step>, a: Account, m: nat) returns (k: nat)
    requires Run(ed, ss, steps) && m < |steps| && Installs(ss[m], ed, steps[m], a) && a !in ss[m].accounts
    ensures k < m && Arms(ss[k], ed, steps[k], a, ArmedPolicy(steps[m].call.attestationKey, steps[m].call.timelockSecs))
    ensures a !in ss[m + 1].armed
  {
    FreshInstallTakesArmed(ss[m], ed, steps[m], a);
    k := ArmedOrigin(ed, ss, steps, a, m);
  }

  /**
   After a transfer, unless a signature for the wallet is just being made, there is no policy, and no
   request, verdict, signing or name recovery on the wallet is accepted until a policy is installed.
   */
  lemma TransferredWalletsStartOver(ed: Ed25519, ss: seq<State>, steps: seq<Step>, a: Account, d: nat, i: nat)
    requires Run(ed, ss, steps) && d < i <= |steps| && Transfers(ss[d], ed, steps[d], a)
    requires !(a in ss[d].accounts && ss[d].accounts[a].phase.Resolving?)
    requires forall m {:trigger Installs(ss[m], ed, steps[m], a)} :: d < m < i ==> !Installs(ss[m], ed, steps[m], a)
    ensures a !in ss[i].accounts && RoundOf(ss[i], a) >= RoundOf(ss[d], a)
    ensures i < |steps| && Subject(steps[i].call) == Some(a) ==> !Succeeds(ss[i], ed, steps[i])
  {
    assert ss[d + 1] == Next(ss[d], ed, steps[d]);
    TransferRemoves(ss[d], ed, steps[d], a);
    GoneUntilInstalled(ed, ss, steps, a, d, i);
    RoundsNeverFall(ed, ss, steps, a, d, i);
    if i < |steps| && Subject(steps[i].call) == Some(a) {
      NoEntryNoWork(ss[i], ed, steps[i], a);
    }
  }

  /**
   So whatever works on a transferred wallet again comes after an install of a policy the account itself
   had armed: the old owner's attestation key opens nothing.
   */
  lemma {:induction false} NewPoliciesAreConsented(ed: Ed25519, ss: seq<State>, steps: seq<Step>, a: Account, d: nat, i: nat)
    returns (m: nat, k: nat)
    requires Run(ed, ss, steps) && d < i <= |steps| && Transfers(ss[d], ed, steps[d], a)
    requires !(a in ss[d].accounts && ss[d].accounts[a].phase.Resolving?) && a in ss[i].accounts
    ensures d < m < i && Installs(ss[m], ed, steps[m], a) && a !in ss[m].accounts
    ensures k < m && Arms(ss[k], ed, steps[k], a, ArmedPolicy(steps[m].call.attestationKey, steps[m].call.timelockSecs))
  {
    m := FirstInstall(ed, ss, steps, a, d, i);
    TransferredWalletsStartOver(ed, ss, steps, a, d, m);
    k := FirstPoliciesAreArmed(ed, ss, steps, a, m);
  }

  lemma {:induction false} FirstInstall(ed: Ed25519, ss: seq<State>, steps: seq<Step>, a: Account, d: nat, i: nat) returns (m: nat)
    requires Run(ed, ss, steps) && d < i <= |steps| && Transfers(ss[d], ed, steps[d], a)
    requires !(a in ss[d].accounts && ss[d].accounts[a].phase.Resolving?) && a in ss[i].accounts
    ensures d < m < i && Installs(ss[m], ed, steps[m], a)
    ensures forall j :: d < j < m ==> !Installs(ss[j], ed, steps[j], a)
    decreases i
  {
    if j :| d < j < i && Installs(ss[j], ed, steps[j], a) {
      m := EarliestInstall(ed, ss, steps, a, d, j);
    } else {
      TransferredWalletsStartOver(ed, ss, steps, a, d, i);
    }
  }

  lemma {:induction false} EarliestInstall(ed: Ed25519, ss: seq<State>, steps: seq<Step>, a: Account, d: nat, j: nat) returns (m: nat)
    requires |ss| == |steps| + 1 && d < j < |steps| && Installs(ss[j], ed, steps[j], a)
    ensures d < m <= j && Installs(ss[m], ed, steps[m], a)
    ensures forall i :: d < i < m ==> !Installs(ss[i], ed, steps[i], a)
  {
    if i :| d < i < j && Installs(ss[i], ed, steps[i], a) {
      m := EarliestInstall(ed, ss, steps, a, d, i);
    } else {
      m := j;
    }
  }

  // ---------------------------------------------------------------- cooldowns and keepers

  predicate Aborts(s: State, ed: Ed25519, step: Step, a: Account) {
    step.call == AbortRecovery(a) && Succeeds(s, ed, step)
  }

  /** The holder's own abort keeps requests out for a day, anyone else's for ten minutes. */
  function CoolUntil(step: Step, a: Account): nat {
    step.ctx.now + if step.ctx.caller == a then 24 * 60 * 60 * NS_PER_SEC else 600 * NS_PER_SEC
  }

  predicate Cooling(s: State, a: Account, until: nat) {
    a in s.accounts && s.accounts[a].phase == Cooldown(until)
  }

  lemma AbortCools(s: State, ed: Ed25519, step: Step, a: Account)
    requires Aborts(s, ed, step, a)
    ensures Cooling(Next(s, ed, step), a, CoolUntil(step, a))
    ensures step.ctx.caller == a || step.ctx.caller == s.installer || step.ctx.caller == s.owner
  {
    Worked(s, ed, step, a);
  }

  lemma CoolingStays(s: State, ed: Ed25519, step: Step, a: Account, until: nat)
    requires Cooling(s, a, until) && step.ctx.now < until && !Transfers(s, ed, step, a)
    ensures Cooling(Next(s, ed, step), a, until)
    ensures Requests(step, a) ==> !Succeeds(s, ed, step)
  {
    if Subject(step.call) == Some(a) && Succeeds(s, ed, step) {
      Worked(s, ed, step, a);
    } else if !About(step, a) || !Succeeds(s, ed, step) {
      Elsewhere(s, ed, step, a);
    }
  }

  lemma {:induction false} StaysCool(ed: Ed25519, ss: seq<State>, steps: seq<Step>, a: Account, j: nat, i: nat)
    requires Run(ed, ss, steps) && j < i < |steps| && Aborts(ss[j], ed, steps[j], a) && steps[i].ctx.now < CoolUntil(steps[j], a)
    requires forall k {:trigger Transfers(ss[k], ed, steps[k], a)} :: j < k < i ==> !Transfers(ss[k], ed, steps[k], a)
    ensures Cooling(ss[i], a, CoolUntil(steps[j], a))
    decreases i
  {
    assert ss[i - 1 + 1] == Next(ss[i - 1], ed, steps[i - 1]);
    if j + 1 < i {
      assert steps[i - 1].ctx.now <= steps[i].ctx.now;
      StaysCool(ed, ss, steps, a, j, i - 1);
      CoolingStays(ss[i - 1], ed, steps[i - 1], a, CoolUntil(steps[j], a));
    } else {
      AbortCools(ss[j], ed, steps[j], a);
    }
  }

  /** After an abort no request on the account is accepted before the cooldown of whoever aborted is over. */
  lemma AbortsKeepRequestsOut(ed: Ed25519, ss: seq<State>, steps: seq<Step>, a: Account, j: nat, i: nat)
    requires Run(ed, ss, steps) && j < i < |steps| && Aborts(ss[j], ed, steps[j], a) && steps[i].ctx.now < CoolUntil(steps[j], a)
    requires (forall k {:trigger Transfers(ss[k], ed, steps[k], a)} :: j < k < i ==> !Transfers(ss[k], ed, steps[k], a)) && Requests(steps[i], a)
    ensures !Succeeds(ss[i], ed, steps[i])
  {
    StaysCool(ed, ss, steps, a, j, i);
    CoolingStays(ss[i], ed, steps[i], a, CoolUntil(steps[j], a));
  }

  lemma WatchersKept(s: State, ed: Ed25519, step: Step)
    requires Next(s, ed, step).watchers != s.watchers || Next(s, ed, step).threshold != s.threshold
    ensures step.call.SetWatchers? && step.ctx.caller == s.owner && step.ctx.deposit == 1
    ensures Next(s, ed, step).watchers == step.call.watchers && Next(s, ed, step).threshold == step.call.threshold
  {
  }

  /** The watchers change only by the contract's owner, to what the owner named. */
  lemma WatchersChangeByOwner(ed: Ed25519, ss: seq<State>, steps: seq<Step>, i: nat)
    requires Run(ed, ss, steps) && i < |steps| && (ss[i + 1].watchers != ss[i].watchers || ss[i + 1].threshold != ss[i].threshold)
    ensures steps[i].call.SetWatchers? && steps[i].ctx.caller == ss[i].owner
    ensures ss[i + 1].watchers == steps[i].call.watchers && ss[i + 1].threshold == steps[i].call.threshold
  {
    assert ss[i + 1] == Next(ss[i], ed, steps[i]);
    WatchersKept(ss[i], ed, steps[i]);
  }
}
