/**
 What every run of the recovery contract guarantees: nothing is signed and no name is moved
 without an attested request, its timelock and a watcher quorum, and rounds only move forward.
 */
module RecoveryRuns {
  import opened Bytes
  import opened Common
  import opened RecoveryMessages
  import opened RecoveryModel

  datatype Step = Step(ctx: Ctx, call: Call)

  predicate Succeeds(s: State, ed: Ed25519, step: Step) {
    Apply(s, ed, step.ctx, step.call).Some?
  }

  function Next(s: State, ed: Ed25519, step: Step): State {
    var r := Apply(s, ed, step.ctx, step.call);
    if r.Some? then r.value else s
  }

  /** A callback stands for a promise an earlier step dispatched, and brings back its arguments. */
  ghost predicate Dispatched(ss: seq<State>, ed: Ed25519, steps: seq<Step>, i: nat)
    requires i < |steps| < |ss|
  {
    match steps[i].call
    case OnSigned(d, a, round) =>
      && d < i && steps[d].call == FinalizeRecovery(a) && Succeeds(ss[d], ed, steps[d])
      && a in ss[d].accounts && ss[d].accounts[a].phase.Approved? && ss[d].accounts[a].phase.round == round
    case OnNameRecovered(d, a, round, _) =>
      && d < i && steps[d].call.RecoverName? && Succeeds(ss[d], ed, steps[d])
      && Subject(steps[d].call) == Some(a)
      && a in ss[d].accounts && ss[d].accounts[a].phase.NameRequested? && ss[d].accounts[a].phase.round == round
    case _ => true
  }

  ghost predicate Run(ed: Ed25519, ss: seq<State>, steps: seq<Step>) {
    && |ss| == |steps| + 1
    && Created(ss[0])
    && (forall i, j :: 0 <= i < j < |steps| ==> steps[i].ctx.now <= steps[j].ctx.now)
    && (forall i :: 0 <= i < |steps| ==> ss[i + 1] == Next(ss[i], ed, steps[i]))
    && (forall i :: 0 <= i < |steps| ==> Dispatched(ss, ed, steps, i))
  }

  ghost predicate Created(s: State) {
    exists self: Account, owner: Account, authority: Account, watchers: seq<PublicKey>, threshold: nat ::
      New(self, owner, authority, watchers, threshold) == Some(s)
  }

  /** The watcher set is distinct ed25519 keys and a threshold of at least two, in every state. */
  lemma {:induction false} WatchersValid(ed: Ed25519, ss: seq<State>, steps: seq<Step>, i: nat)
    requires Run(ed, ss, steps) && i < |ss|
    ensures ValidWatchers(ss[i].watchers, ss[i].threshold) && ss[i].self == ss[0].self
  {
    if i > 0 {
      WatchersValid(ed, ss, steps, i - 1);
    }
  }

  // ---------------------------------------------------------------- what a step does to one account

  /** The call works on the entry of `a`. */
  predicate About(step: Step, a: Account) {
    || Subject(step.call) == Some(a)
    || (step.call.Install? && step.call.account == a)
    || (step.call.WalletTransferred? && step.call.wallet == a)
  }

  lemma Elsewhere(s: State, ed: Ed25519, step: Step, a: Account)
    requires !About(step, a) || !Succeeds(s, ed, step)
    ensures var s' := Next(s, ed, step);
            && (a in s'.accounts <==> a in s.accounts) && (a in s.accounts ==> s'.accounts[a] == s.accounts[a])
            && FloorOf(s', a) == FloorOf(s, a)
  {
    if Succeeds(s, ed, step) {
      if Subject(step.call).Some? {
        Worked(s, ed, step, Subject(step.call).value);
      } else if Govern(s, step.ctx, step.call).Some? {
        GovernKeepsAccounts(s, step.ctx, step.call);
      }
    }
  }

  lemma GovernKeepsAccounts(s: State, ctx: Ctx, c: Call)
    requires Govern(s, ctx, c).Some?
    ensures Govern(s, ctx, c).value.accounts == s.accounts && Govern(s, ctx, c).value.roundFloor == s.roundFloor
  {
  }

  lemma Worked(s: State, ed: Ed25519, step: Step, a: Account)
    requires Subject(step.call) == Some(a) && Succeeds(s, ed, step)
    ensures a in s.accounts && NextEntry(s, ed, step.ctx, step.call, s.accounts[a]).Some?
    ensures Next(s, ed, step) == s.(accounts := s.accounts[a := NextEntry(s, ed, step.ctx, step.call, s.accounts[a]).value])
  {
  }

  /** Installing or resetting leaves no live recovery that was not there before, and keeps the round. */
  lemma Replaced(s: State, ed: Ed25519, step: Step, a: Account)
    requires About(step, a) && Subject(step.call).None? && Succeeds(s, ed, step)
    ensures var s' := Next(s, ed, step);
            && RoundOf(s', a) == RoundOf(s, a)
            && (a in s'.accounts && Active(s'.accounts[a].phase) ==> step.call.WalletTransferred? && s' == s)
  {
  }

  /** The three ways together. */
  lemma Split(s: State, ed: Ed25519, step: Step, a: Account)
    ensures var s' := Next(s, ed, step);
            if !About(step, a) || !Succeeds(s, ed, step) then
              && (a in s'.accounts <==> a in s.accounts) && (a in s.accounts ==> s'.accounts[a] == s.accounts[a])
              && FloorOf(s', a) == FloorOf(s, a)
            else if Subject(step.call) == Some(a) then
              && a in s.accounts && NextEntry(s, ed, step.ctx, step.call, s.accounts[a]).Some?
              && s' == s.(accounts := s.accounts[a := NextEntry(s, ed, step.ctx, step.call, s.accounts[a]).value])
            else
              && RoundOf(s', a) == RoundOf(s, a)
              && (a in s'.accounts && Active(s'.accounts[a].phase) ==> step.call.WalletTransferred? && s' == s)
    ensures Next(s, ed, step).self == s.self
  {
    if !About(step, a) || !Succeeds(s, ed, step) {
      Elsewhere(s, ed, step, a);
    } else if Subject(step.call) == Some(a) {
      Worked(s, ed, step, a);
    } else {
      Replaced(s, ed, step, a);
    }
  }

  // ---------------------------------------------------------------- rounds

  /** The round the next request on an account will take. */
  function RoundOf(s: State, a: Account): U64 {
    if a in s.accounts then s.accounts[a].round else FloorOf(s, a)
  }

  predicate Requests(step: Step, a: Account) {
    (step.call.RequestRecovery? || step.call.RequestNameRecovery?) && Subject(step.call) == Some(a)
  }

  predicate Active(p: Phase) {
    !p.Idle? && !p.Cooldown?
  }

  ghost predicate PhaseRound(s: State, a: Account) {
    a in s.accounts && Active(s.accounts[a].phase) ==> s.accounts[a].phase.round + 1 == s.accounts[a].round
  }

  lemma RoundStep(s: State, ed: Ed25519, step: Step, a: Account)
    ensures RoundOf(Next(s, ed, step), a)
            == RoundOf(s, a) + if Requests(step, a) && Succeeds(s, ed, step) then 1 else 0
    ensures PhaseRound(s, a) ==> PhaseRound(Next(s, ed, step), a)
  {
    Split(s, ed, step, a);
  }

  /** An account's round never goes down, through requests, aborts, resets and reinstalls alike. */
  lemma {:induction false} RoundsNeverFall(ed: Ed25519, ss: seq<State>, steps: seq<Step>, a: Account, i: nat, k: nat)
    requires Run(ed, ss, steps) && i <= k < |ss|
    ensures RoundOf(ss[i], a) <= RoundOf(ss[k], a)
  {
    if i < k {
      RoundsNeverFall(ed, ss, steps, a, i, k - 1);
      RoundStep(ss[k - 1], ed, steps[k - 1], a);
    }
  }

  /** No two accepted requests on an account share a round. */
  lemma RequestsNeverShareARound(ed: Ed25519, ss: seq<State>, steps: seq<Step>, a: Account, i: nat, k: nat)
    requires Run(ed, ss, steps) && i < k < |steps|
    requires Requests(steps[i], a) && Succeeds(ss[i], ed, steps[i])
    requires Requests(steps[k], a) && Succeeds(ss[k], ed, steps[k])
    ensures RoundOf(ss[i], a) < RoundOf(ss[k], a)
    ensures ss[i + 1].accounts[a].phase.round == RoundOf(ss[i], a)
    ensures ss[k + 1].accounts[a].phase.round == RoundOf(ss[k], a)
  {
    RoundStep(ss[i], ed, steps[i], a);
    RoundsNeverFall(ed, ss, steps, a, i + 1, k);
  }

  /** A live recovery is always for the round just before the one the next request would take. */
  lemma {:induction false} ActivePhaseRound(ed: Ed25519, ss: seq<State>, steps: seq<Step>, a: Account, i: nat)
    requires Run(ed, ss, steps) && i < |ss|
    ensures PhaseRound(ss[i], a)
  {
    if i > 0 {
      ActivePhaseRound(ed, ss, steps, a, i - 1);
      RoundStep(ss[i - 1], ed, steps[i - 1], a);
    }
  }

  // ---------------------------------------------------------------- where a recovery comes from

  /** From state `j` on, up to `i`, the account keeps this policy and nothing is installed over it. */
  ghost predicate Unreplaced(ss: seq<State>, ed: Ed25519, steps: seq<Step>, a: Account, p: Policy, j: nat, i: nat)
    requires j <= i < |ss| && |ss| == |steps| + 1
  {
    && (forall m :: j <= m <= i ==> a in ss[m].accounts && ss[m].accounts[a].policy == p)
    && (forall m :: j <= m < i ==> !(steps[m].call.Install? && steps[m].call.account == a && Succeeds(ss[m], ed, steps[m])))
  }

  lemma ActivePolicyStays(s: State, ed: Ed25519, step: Step, a: Account)
    requires a in Next(s, ed, step).accounts && Active(Next(s, ed, step).accounts[a].phase)
    ensures a in s.accounts && Next(s, ed, step).accounts[a].policy == s.accounts[a].policy
    ensures !(step.call.Install? && step.call.account == a && Succeeds(s, ed, step))
    ensures Next(s, ed, step).self == s.self
  {
    Split(s, ed, step, a);
  }

  lemma UnreplacedExtends(ss: seq<State>, ed: Ed25519, steps: seq<Step>, a: Account, p: Policy, j: nat, i: nat)
    requires j < i < |ss| && |ss| == |steps| + 1
    requires Unreplaced(ss, ed, steps, a, p, j, i - 1)
    requires a in ss[i].accounts && ss[i].accounts[a].policy == p
    requires !(steps[i - 1].call.Install? && steps[i - 1].call.account == a && Succeeds(ss[i - 1], ed, steps[i - 1]))
    ensures Unreplaced(ss, ed, steps, a, p, j, i)
  {
  }

  /** How an entry can come to be in each live phase by one step. */
  lemma IntoRequested(s: State, ed: Ed25519, step: Step, a: Account)
    requires a in Next(s, ed, step).accounts && Next(s, ed, step).accounts[a].phase.Requested?
    ensures a in s.accounts
    ensures var p, p' := s.accounts[a].phase, Next(s, ed, step).accounts[a].phase;
            p == p' || (&& step.call == RequestRecovery(a, p'.newKey, p'.round, step.call.attestation)
                        && Succeeds(s, ed, step) && p'.requestedAt == step.ctx.now
                        && Verify(ed, Encode(Request(s.self, a, p'.newKey, p'.round)), step.call.attestation,
                                  s.accounts[a].policy.attestationKey))
  {
    Split(s, ed, step, a);
  }

  lemma IntoApproved(s: State, ed: Ed25519, step: Step, a: Account)
    requires a in Next(s, ed, step).accounts
    requires Next(s, ed, step).accounts[a].phase.Approved? || Next(s, ed, step).accounts[a].phase.Resolving?
    ensures a in s.accounts
    ensures var p, p' := s.accounts[a].phase, Next(s, ed, step).accounts[a].phase;
            || ((p.Approved? || p.Resolving?) && p.newKey == p'.newKey && p.round == p'.round)
            || (&& p.Requested? && p.newKey == p'.newKey && p.round == p'.round
                && step.call == SubmitVerdict(a, true, step.call.signatures) && Succeeds(s, ed, step)
                && step.ctx.now >= p.requestedAt + s.accounts[a].policy.timelockSecs * NS_PER_SEC
                && Quorum(ed, Encode(Verdict(s.self, a, p.newKey, p.round, true)), step.call.signatures,
                          s.watchers, s.threshold))
  {
    Split(s, ed, step, a);
  }

  lemma IntoNamed(s: State, ed: Ed25519, step: Step, a: Account)
    requires a in Next(s, ed, step).accounts
    requires Next(s, ed, step).accounts[a].phase.NameRequested? || Next(s, ed, step).accounts[a].phase.NameResolving?
    ensures a in s.accounts
    ensures var p, p' := s.accounts[a].phase, Next(s, ed, step).accounts[a].phase;
            || (&& (p.NameRequested? || p.NameResolving?) && p.newOwner == p'.newOwner && p.round == p'.round
                && p.requestedAt == p'.requestedAt)
            || (&& step.call.RequestNameRecovery? && step.call.newOwner == p'.newOwner
                && Subject(step.call) == Some(a) && Succeeds(s, ed, step)
                && p'.requestedAt == step.ctx.now && RoundOf(s, a) == p'.round
                && Verify(ed, Encode(NameRequest(s.self, step.call.tla, step.call.name, p'.newOwner, p'.round)),
                          step.call.attestation, s.accounts[a].policy.attestationKey))
  {
    Split(s, ed, step, a);
  }

  /** Step `j` is the attested request that opened this round for this new key, under this policy. */
  ghost predicate NativeRequest(ss: seq<State>, ed: Ed25519, steps: seq<Step>, a: Account, key: PublicKey, round: U64,
                                p: Policy, j: nat)
    requires j < |steps| < |ss|
  {
    && steps[j].call.RequestRecovery?
    && Succeeds(ss[j], ed, steps[j])
    && steps[j].call.account == a && steps[j].call.newKey == key && steps[j].call.round == round
    && Verify(ed, Encode(Request(ss[0].self, a, key, round)), steps[j].call.attestation, p.attestationKey)
  }

  /** Step `k` is the watchers' approval of exactly that, at or after the request's timelock. */
  ghost predicate NativeApproval(ss: seq<State>, ed: Ed25519, steps: seq<Step>, a: Account, key: PublicKey, round: U64,
                                 k: nat)
    requires k < |steps| < |ss|
  {
    && steps[k].call.SubmitVerdict? && steps[k].call.account == a && steps[k].call.approve
    && Succeeds(ss[k], ed, steps[k])
    && var signers := ValidSigners(ed, Encode(Verdict(ss[0].self, a, key, round, true)),
                                   steps[k].call.signatures, ss[k].watchers);
       |signers| >= ss[k].threshold >= 2
  }

  lemma {:induction false} RequestedOrigin(ed: Ed25519, ss: seq<State>, steps: seq<Step>, a: Account, i: nat)
    returns (j: nat)
    requires Run(ed, ss, steps) && i < |ss| && a in ss[i].accounts && ss[i].accounts[a].phase.Requested?
    ensures j < i
    ensures var e := ss[i].accounts[a];
            && NativeRequest(ss, ed, steps, a, e.phase.newKey, e.phase.round, e.policy, j)
            && e.phase.requestedAt == steps[j].ctx.now
            && Unreplaced(ss, ed, steps, a, e.policy, j, i)
  {
    var e, step := ss[i].accounts[a], steps[i - 1];
    ActivePolicyStays(ss[i - 1], ed, step, a);
    IntoRequested(ss[i - 1], ed, step, a);
    if ss[i - 1].accounts[a].phase == e.phase {
      j := RequestedOrigin(ed, ss, steps, a, i - 1);
      UnreplacedExtends(ss, ed, steps, a, e.policy, j, i);
    } else {
      j := i - 1;
      WatchersValid(ed, ss, steps, j);
      assert Unreplaced(ss, ed, steps, a, e.policy, j, j);
      UnreplacedExtends(ss, ed, steps, a, e.policy, j, i);
    }
  }

  /** An approval that still stands, signing or not, was given by step `k` to the request of step `j`. */
  lemma {:induction false} ApprovedOrigin(ed: Ed25519, ss: seq<State>, steps: seq<Step>, a: Account, i: nat)
    returns (j: nat, k: nat)
    requires Run(ed, ss, steps) && i < |ss| && a in ss[i].accounts
    requires ss[i].accounts[a].phase.Approved? || ss[i].accounts[a].phase.Resolving?
    ensures j < k < i
    ensures var e := ss[i].accounts[a];
            && NativeRequest(ss, ed, steps, a, e.phase.newKey, e.phase.round, e.policy, j)
            && NativeApproval(ss, ed, steps, a, e.phase.newKey, e.phase.round, k)
            && Unreplaced(ss, ed, steps, a, e.policy, j, i)
            && steps[k].ctx.now >= steps[j].ctx.now + e.policy.timelockSecs * NS_PER_SEC
  {
    var e, step := ss[i].accounts[a], steps[i - 1];
    ActivePolicyStays(ss[i - 1], ed, step, a);
    IntoApproved(ss[i - 1], ed, step, a);
    if ss[i - 1].accounts[a].phase.Requested? {
      k := i - 1;
      j := RequestedOrigin(ed, ss, steps, a, k);
      WatchersValid(ed, ss, steps, k);
    } else {
      j, k := ApprovedOrigin(ed, ss, steps, a, i - 1);
    }
    UnreplacedExtends(ss, ed, steps, a, e.policy, j, i);
  }

  /**
   Every MPC signing request is backed: for the account, key and round it asks the signer
   about there is an earlier request attested under the same, unreplaced policy, and after that
   request's timelock a verdict by at least two distinct current watchers.
   */
  lemma SigningIsBacked(ed: Ed25519, ss: seq<State>, steps: seq<Step>, i: nat) returns (j: nat, k: nat)
    requires Run(ed, ss, steps) && i < |steps|
    requires steps[i].call.FinalizeRecovery? && Succeeds(ss[i], ed, steps[i])
    ensures j < k < i
    ensures var a := steps[i].call.account;
            var e := ss[i].accounts[a];
            && NativeRequest(ss, ed, steps, a, e.phase.newKey, e.phase.round, e.policy, j)
            && NativeApproval(ss, ed, steps, a, e.phase.newKey, e.phase.round, k)
            && Unreplaced(ss, ed, steps, a, e.policy, j, i)
            && steps[k].ctx.now >= steps[j].ctx.now + e.policy.timelockSecs * NS_PER_SEC
  {
    j, k := ApprovedOrigin(ed, ss, steps, steps[i].call.account, i);
  }

  ghost predicate NameRequestStep(ss: seq<State>, ed: Ed25519, steps: seq<Step>, a: Account, newOwner: Account,
                                  round: U64, p: Policy, j: nat)
    requires j < |steps| < |ss|
  {
    && steps[j].call.RequestNameRecovery?
    && Succeeds(ss[j], ed, steps[j])
    && Subject(steps[j].call) == Some(a) && steps[j].call.newOwner == newOwner
    && Verify(ed, Encode(NameRequest(ss[0].self, steps[j].call.tla, steps[j].call.name, newOwner, round)),
              steps[j].call.attestation, p.attestationKey)
  }

  lemma {:induction false} NameRequestedOrigin(ed: Ed25519, ss: seq<State>, steps: seq<Step>, a: Account, i: nat)
    returns (j: nat)
    requires Run(ed, ss, steps) && i < |ss| && a in ss[i].accounts
    requires ss[i].accounts[a].phase.NameRequested? || ss[i].accounts[a].phase.NameResolving?
    ensures j < i
    ensures var e := ss[i].accounts[a];
            && NameRequestStep(ss, ed, steps, a, e.phase.newOwner, e.phase.round, e.policy, j)
            && e.phase.requestedAt == steps[j].ctx.now
            && RoundOf(ss[j], a) == e.phase.round
            && Unreplaced(ss, ed, steps, a, e.policy, j, i)
  {
    var e, step := ss[i].accounts[a], steps[i - 1];
    ActivePolicyStays(ss[i - 1], ed, step, a);
    IntoNamed(ss[i - 1], ed, step, a);
    var before := ss[i - 1].accounts[a].phase;
    if before.NameRequested? || before.NameResolving? {
      j := NameRequestedOrigin(ed, ss, steps, a, i - 1);
    } else {
      j := i - 1;
      WatchersValid(ed, ss, steps, j);
      assert Unreplaced(ss, ed, steps, a, e.policy, j, j);
    }
    UnreplacedExtends(ss, ed, steps, a, e.policy, j, i);
  }

  /**
   Every recovery call to the registry is backed: an earlier attested request named the same
   account, new owner and round under the same, unreplaced policy, and the call itself carries,
   no earlier than that request's timelock, a quorum of at least two distinct current watchers
   over this name, owner, expected owner, deadline and round.
   */
  lemma RegistryCallIsBacked(ed: Ed25519, ss: seq<State>, steps: seq<Step>, i: nat) returns (j: nat)
    requires Run(ed, ss, steps) && i < |steps|
    requires steps[i].call.RecoverName? && Succeeds(ss[i], ed, steps[i])
    ensures j < i
    ensures Subject(steps[i].call).Some?
    ensures var c := steps[i].call;
            var a := Subject(c).value;
            var e := ss[i].accounts[a];
            && NameRequestStep(ss, ed, steps, a, c.newOwner, e.phase.round, e.policy, j)
            && Unreplaced(ss, ed, steps, a, e.policy, j, i)
            && steps[i].ctx.now >= steps[j].ctx.now + e.policy.timelockSecs * NS_PER_SEC
            && steps[i].ctx.now < c.deadline
            && var message := NameRecovery(ss[0].self, c.tla, c.name, c.newOwner, c.expectedOwner, c.deadline, e.phase.round);
               |ValidSigners(ed, Encode(message), c.signatures, ss[i].watchers)| >= ss[i].threshold >= 2
  {
    j := NameRequestedOrigin(ed, ss, steps, Subject(steps[i].call).value, i);
    WatchersValid(ed, ss, steps, i);
  }

  // ---------------------------------------------------------------- late callbacks

  predicate IsCallback(c: Call) {
    c.OnSigned? || c.OnNameRecovered?
  }

  /** The new holder a phase is for, key or account. */
  function Target(p: Phase): (seq<Byte>, bool)
    requires Active(p)
  {
    match p
    case Requested(key, _, _) => (key, true)
    case Approved(key, _) => (key, true)
    case Resolving(key, _) => (key, true)
    case NameRequested(owner, _, _) => (owner, false)
    case NameResolving(owner, _, _) => (owner, false)
  }

  /** The request that opened a live recovery's round. */
  lemma ActiveOrigin(ed: Ed25519, ss: seq<State>, steps: seq<Step>, a: Account, i: nat) returns (j: nat)
    requires Run(ed, ss, steps) && i < |ss| && a in ss[i].accounts && Active(ss[i].accounts[a].phase)
    ensures j < i && Requests(steps[j], a) && Succeeds(ss[j], ed, steps[j])
    ensures RoundOf(ss[j], a) == ss[i].accounts[a].phase.round
    ensures ss[j + 1].accounts[a].phase.Requested? || ss[j + 1].accounts[a].phase.NameRequested?
    ensures Target(ss[j + 1].accounts[a].phase) == Target(ss[i].accounts[a].phase)
  {
    var phase := ss[i].accounts[a].phase;
    var k: nat;
    if phase.Requested? {
      j := RequestedOrigin(ed, ss, steps, a, i);
    } else if phase.Approved? || phase.Resolving? {
      j, k := ApprovedOrigin(ed, ss, steps, a, i);
    } else {
      j := NameRequestedOrigin(ed, ss, steps, a, i);
    }
  }

  lemma SameRoundSameTarget(ed: Ed25519, ss: seq<State>, steps: seq<Step>, a: Account, d: nat, i: nat)
    requires Run(ed, ss, steps) && d < |ss| && i < |ss|
    requires a in ss[d].accounts && Active(ss[d].accounts[a].phase)
    requires a in ss[i].accounts && Active(ss[i].accounts[a].phase)
    requires ss[d].accounts[a].phase.round == ss[i].accounts[a].phase.round
    ensures Target(ss[d].accounts[a].phase) == Target(ss[i].accounts[a].phase)
  {
    var jd := ActiveOrigin(ed, ss, steps, a, d);
    var ji := ActiveOrigin(ed, ss, steps, a, i);
    if jd < ji {
      RequestsNeverShareARound(ed, ss, steps, a, jd, ji);
    } else if ji < jd {
      RequestsNeverShareARound(ed, ss, steps, a, ji, jd);
    }
  }

  /**
   However late a callback is delivered, and whatever was aborted, reset, reinstalled or
   requested in between, the only recovery it can settle is the one that dispatched it: same
   account, same round, same new holder. Every other account is left alone.
   */
  lemma LateCallbacksSettleTheirOwnRound(ed: Ed25519, ss: seq<State>, steps: seq<Step>, i: nat)
    requires Run(ed, ss, steps) && i < |steps| && IsCallback(steps[i].call)
    requires ss[i + 1] != ss[i]
    ensures var d, a := steps[i].call.origin, steps[i].call.account;
            && d < i && a in ss[i].accounts && a in ss[d].accounts
            && (ss[i].accounts[a].phase.Resolving? || ss[i].accounts[a].phase.NameResolving?)
            && Active(ss[d].accounts[a].phase)
            && ss[i].accounts[a].phase.round == ss[d].accounts[a].phase.round == steps[i].call.round
            && Target(ss[i].accounts[a].phase) == Target(ss[d].accounts[a].phase)
            && ss[i + 1] == ss[i].(accounts := ss[i].accounts[a := ss[i + 1].accounts[a]])
  {
    assert Dispatched(ss, ed, steps, i);
    SameRoundSameTarget(ed, ss, steps, steps[i].call.account, steps[i].call.origin, i);
  }
}
