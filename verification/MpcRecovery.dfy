/**
 The recovery contract as it is written: maps of accounts, floors and armed policies that calls
 and callbacks rewrite in place, and the loop that counts watchers. Each method is proved to do
 what the value model says; a method that answers `false` has changed nothing.
 */
module MpcRecovery {
  import opened Bytes
  import opened Common
  import opened RecoveryMessages
  import M = RecoveryModel

  lemma SignersGrow(ed: M.Ed25519, message: seq<Byte>, signatures: seq<M.Signed>, watchers: seq<PublicKey>, i: nat)
    requires i < |signatures|
    ensures var s := signatures[i];
            M.ValidSigners(ed, message, signatures[..i + 1], watchers)
            == M.ValidSigners(ed, message, signatures[..i], watchers)
               + (if s.key in watchers && |s.signature| == 64 && M.Verify(ed, message, s.signature, s.key)
                  then {s.key} else {})
  {
    var before, upTo := signatures[..i], signatures[..i + 1];
    assert forall j :: 0 <= j < i ==> before[j] == upTo[j];
    assert upTo[i] == signatures[i];
    forall w | w in M.ValidSigners(ed, message, before, watchers)
      ensures w in M.ValidSigners(ed, message, upTo, watchers)
    {
      var j :| 0 <= j < i && before[j].key == w && |before[j].signature| == 64
               && M.Verify(ed, message, before[j].signature, w);
      assert upTo[j] == before[j];
    }
    forall w | w in M.ValidSigners(ed, message, upTo, watchers) && w != signatures[i].key
      ensures w in M.ValidSigners(ed, message, before, watchers)
    {
      var j :| 0 <= j <= i && upTo[j].key == w && |upTo[j].signature| == 64
               && M.Verify(ed, message, upTo[j].signature, w);
      assert upTo[j] == before[j];
    }
  }

  /**
   `verify_quorum`: walks the signatures once, counting a watcher the first time one of its
   signatures verifies. The answer depends only on which watchers hold some valid signature,
   not on order or repeats.
   */
  method VerifyQuorum(ed: M.Ed25519, message: seq<Byte>, signatures: seq<M.Signed>, watchers: seq<PublicKey>,
                      threshold: nat) returns (ok: bool)
    ensures ok <==> |M.ValidSigners(ed, message, signatures, watchers)| >= threshold
  {
    var counted: seq<PublicKey> := [];
    for i := 0 to |signatures|
      invariant Distinct(counted)
      invariant Elements(counted) == M.ValidSigners(ed, message, signatures[..i], watchers)
    {
      SignersGrow(ed, message, signatures, watchers, i);
      var s := signatures[i];
      if s.key in watchers && s.key !in counted && |s.signature| == 64 {
        if M.Verify(ed, message, s.signature, s.key) {
          counted := counted + [s.key];
        }
      }
    }
    assert signatures[..|signatures|] == signatures;
    DistinctCardinality(counted);
    return |counted| >= threshold;
  }

  /** The checks `new` and `set_watchers` make of a watcher set. */
  method CheckWatchers(watchers: seq<PublicKey>, threshold: nat) returns (ok: bool)
    ensures ok == M.ValidWatchers(watchers, threshold)
  {
    if threshold < M.MIN_WATCHER_THRESHOLD || threshold > |watchers| || |watchers| > M.MAX_WATCHERS {
      return false;
    }
    var seen := {};
    for i := 0 to |watchers|
      invariant seen == Elements(watchers[..i])
      invariant forall j :: 0 <= j < i ==> IsEd25519(watchers[j])
      invariant forall j, k :: 0 <= j < k < i ==> watchers[j] != watchers[k]
    {
      if !IsEd25519(watchers[i]) {
        return false;
      }
      if watchers[i] in seen {
        var j :| 0 <= j < i && watchers[..i][j] == watchers[i];
        assert watchers[j] == watchers[i];
        return false;
      }
      assert forall j :: 0 <= j < i ==> watchers[j] == watchers[..i][j];
      assert watchers[..i + 1] == watchers[..i] + [watchers[i]];
      seen := seen + {watchers[i]};
    }
    return true;
  }

  class MpcRecovery {
    const self: M.Account
    const transferAuthority: M.Account
    var owner: M.Account
    var installer: M.Account
    var watchers: seq<PublicKey>
    var threshold: nat
    var accounts: map<M.Account, M.Entry>
    var roundFloor: map<M.Account, U64>
    var armed: map<M.Account, M.ArmedPolicy>
    var registry: Option<M.Account>
    var pendingOwner: Option<M.Account>

    function Snapshot(): M.State
      reads this
    {
      M.State(self, owner, installer, transferAuthority, watchers, threshold, accounts, roundFloor, armed,
              registry, pendingOwner)
    }

    /** The new state and verdict a call must end with. */
    twostate predicate Does(ed: M.Ed25519, ctx: M.Ctx, call: M.Call, ok: bool)
      reads this
    {
      var r := M.Apply(old(Snapshot()), ed, ctx, call);
      ok == r.Some? && Snapshot() == (if ok then r.value else old(Snapshot()))
    }

    constructor (here: M.Account, holder: M.Account, authority: M.Account, keys: seq<PublicKey>, quorum: nat)
      requires M.New(here, holder, authority, keys, quorum).Some?
      ensures Some(Snapshot()) == M.New(here, holder, authority, keys, quorum)
    {
      self, transferAuthority := here, authority;
      owner, installer := holder, holder;
      watchers, threshold := keys, quorum;
      accounts, roundFloor, armed := map[], map[], map[];
      registry, pendingOwner := None, None;
    }

    method SetWatchers(ed: M.Ed25519, ctx: M.Ctx, keys: seq<PublicKey>, quorum: nat) returns (ok: bool)
      modifies this
      ensures Does(ed, ctx, M.SetWatchers(keys, quorum), ok)
    {
      if ctx.deposit != 1 || ctx.caller != owner {
        return false;
      }
      ok := CheckWatchers(keys, quorum);
      if ok {
        watchers, threshold := keys, quorum;
      }
    }

    method ArmPolicyInstall(ed: M.Ed25519, ctx: M.Ctx, key: PublicKey, secs: nat) returns (ok: bool)
      modifies this
      ensures Does(ed, ctx, M.Arm(key, secs), ok)
    {
      if ctx.deposit != 1 || !IsEd25519(key) || secs < M.MIN_TIMELOCK_SECS || secs > M.MAX_TIMELOCK_SECS {
        return false;
      }
      armed := armed[ctx.caller := M.ArmedPolicy(key, secs)];
      return true;
    }

    method DisarmPolicyInstall(ed: M.Ed25519, ctx: M.Ctx) returns (ok: bool)
      modifies this
      ensures Does(ed, ctx, M.Disarm, ok)
    {
      if ctx.deposit != 1 || ctx.caller !in armed {
        return false;
      }
      armed := armed - {ctx.caller};
      return true;
    }

    method InstallPolicy(ed: M.Ed25519, ctx: M.Ctx, account: M.Account, mpcKey: PublicKey, key: PublicKey, secs: nat)
      returns (ok: bool)
      modifies this
      ensures Does(ed, ctx, M.Install(account, mpcKey, key, secs), ok)
    {
      if !M.IsInstaller(Snapshot(), ctx) || secs < M.MIN_TIMELOCK_SECS || secs > M.MAX_TIMELOCK_SECS {
        return false;
      }
      if !IsEd25519(key) || !IsEd25519(mpcKey) {
        return false;
      }
      var policy := M.Policy(mpcKey, key, secs);
      if account in accounts {
        var existing := accounts[account];
        if !existing.phase.Settled() || ctx.caller != owner {
          return false;
        }
        accounts := accounts[account := M.Entry(policy, existing.round, existing.phase)];
        return true;
      }
      if account !in armed || armed[account].attestationKey != key || armed[account].timelockSecs != secs {
        return false;
      }
      armed := armed - {account};
      var floor := if account in roundFloor then roundFloor[account] else 0;
      accounts := accounts[account := M.Entry(policy, floor, M.Idle)];
      return true;
    }

    method RequestRecovery(ed: M.Ed25519, ctx: M.Ctx, account: M.Account, newKey: PublicKey, round: U64,
                           attestation: seq<Byte>) returns (ok: bool)
      modifies this
      ensures Does(ed, ctx, M.RequestRecovery(account, newKey, round, attestation), ok)
    {
      if account !in accounts || !accounts[account].phase.AcceptsRequest(ctx.now) {
        return false;
      }
      var entry := accounts[account];
      if round != entry.round || |attestation| != 64 || entry.round == MAX_U64 {
        return false;
      }
      var message := RequestMessage(self, account, newKey, entry.round);
      if !M.Verify(ed, message, attestation, entry.policy.attestationKey) {
        return false;
      }
      entry := entry.(phase := M.Requested(newKey, entry.round, ctx.now), round := entry.round + 1);
      accounts := accounts[account := entry];
      return true;
    }

    method RequestNameRecovery(ed: M.Ed25519, ctx: M.Ctx, tla: Text, name: Text, newOwner: M.Account,
                               attestation: seq<Byte>) returns (ok: bool)
      modifies this
      ensures Does(ed, ctx, M.RequestNameRecovery(tla, name, newOwner, attestation), ok)
    {
      var leased := M.LeasedAccount(tla, name);
      if leased.None? || leased.value !in accounts || !accounts[leased.value].phase.AcceptsRequest(ctx.now) {
        return false;
      }
      var entry := accounts[leased.value];
      if |attestation| != 64 || entry.round == MAX_U64 {
        return false;
      }
      var message := NameRequestMessage(self, tla, name, newOwner, entry.round);
      if !M.Verify(ed, message, attestation, entry.policy.attestationKey) {
        return false;
      }
      entry := entry.(phase := M.NameRequested(newOwner, entry.round, ctx.now), round := entry.round + 1);
      accounts := accounts[leased.value := entry];
      return true;
    }

    method SubmitVerdict(ed: M.Ed25519, ctx: M.Ctx, account: M.Account, approve: bool, signatures: seq<M.Signed>)
      returns (ok: bool)
      modifies this
      ensures Does(ed, ctx, M.SubmitVerdict(account, approve, signatures), ok)
    {
      if account !in accounts || !accounts[account].phase.Requested? {
        return false;
      }
      var entry := accounts[account];
      var phase := entry.phase;
      if ctx.now < phase.requestedAt + entry.policy.timelockSecs * NS_PER_SEC {
        return false;
      }
      var message := VerdictMessage(self, account, phase.newKey, phase.round, approve);
      var quorum := VerifyQuorum(ed, message, signatures, watchers, threshold);
      if !quorum {
        return false;
      }
      if !approve {
        accounts := accounts[account := entry.(phase := M.Idle)];
        return true;
      }
      accounts := accounts[account := entry.(phase := M.Approved(phase.newKey, phase.round))];
      return true;
    }

    /** Moves an approval to signing and answers which key, round and MPC key the signer is asked about. */
    method FinalizeRecovery(ed: M.Ed25519, ctx: M.Ctx, account: M.Account)
      returns (ok: bool, sent: Option<(PublicKey, U64, PublicKey)>)
      modifies this
      ensures Does(ed, ctx, M.FinalizeRecovery(account), ok)
      ensures sent.Some? == ok
      ensures ok ==> var e := old(accounts)[account]; sent == Some((e.phase.newKey, e.phase.round, e.policy.mpcKey))
    {
      if account !in accounts || !accounts[account].phase.Approved? || !M.IsInstaller(Snapshot(), ctx) {
        return false, None;
      }
      var entry := accounts[account];
      accounts := accounts[account := entry.(phase := M.Resolving(entry.phase.newKey, entry.phase.round))];
      return true, Some((entry.phase.newKey, entry.phase.round, entry.policy.mpcKey));
    }

    method RecoverName(ed: M.Ed25519, ctx: M.Ctx, tla: Text, name: Text, newOwner: M.Account,
                       expectedOwner: M.Account, deadline: U64, signatures: seq<M.Signed>) returns (ok: bool)
      modifies this
      ensures Does(ed, ctx, M.RecoverName(tla, name, newOwner, expectedOwner, deadline, signatures), ok)
    {
      if ctx.deposit != 1 || registry.None? || ctx.now >= deadline {
        return false;
      }
      var leased := M.LeasedAccount(tla, name);
      if leased.None? || leased.value !in accounts || !accounts[leased.value].phase.NameRequested? {
        return false;
      }
      var entry := accounts[leased.value];
      var phase := entry.phase;
      if phase.newOwner != newOwner || ctx.now < phase.requestedAt + entry.policy.timelockSecs * NS_PER_SEC {
        return false;
      }
      var message := NameRecoveryMessage(self, tla, name, newOwner, expectedOwner, deadline, phase.round);
      ok := VerifyQuorum(ed, message, signatures, watchers, threshold);
      if ok {
        accounts := accounts[leased.value := entry.(phase := M.NameResolving(newOwner, phase.round, phase.requestedAt))];
      }
    }

    method AbortRecovery(ed: M.Ed25519, ctx: M.Ctx, account: M.Account) returns (ok: bool)
      modifies this
      ensures Does(ed, ctx, M.AbortRecovery(account), ok)
    {
      var byHolder := ctx.caller == account;
      if !M.IsInstaller(Snapshot(), ctx) && !byHolder {
        return false;
      }
      if account !in accounts {
        return false;
      }
      var entry := accounts[account];
      match entry.phase {
        case Requested(_, _, _) =>
        case Approved(_, _) =>
        case NameRequested(_, _, _) =>
        case _ => return false;
      }
      var cooldown := if byHolder then M.HOLDER_ABORT_COOLDOWN_NS else M.ABORT_COOLDOWN_NS;
      accounts := accounts[account := entry.(phase := M.Cooldown(ctx.now + cooldown))];
      return true;
    }

    /** `settle_name_resolving`, from the callback and from the installer's claim. */
    method SettleNameResolving(account: M.Account, round: U64, done: bool) returns (ok: bool)
      modifies this`accounts
      ensures var e := if account in old(accounts) then M.SettleName(old(accounts)[account], round, done) else None;
              ok == e.Some? && accounts == (if ok then old(accounts)[account := e.value] else old(accounts))
    {
      if account !in accounts {
        return false;
      }
      var entry := accounts[account];
      if !entry.phase.NameResolving? || entry.phase.round != round {
        return false;
      }
      if done {
        entry := entry.(phase := M.Idle);
      } else {
        entry := entry.(phase := M.NameRequested(entry.phase.newOwner, round, entry.phase.requestedAt));
      }
      accounts := accounts[account := entry];
      return true;
    }

    method OnNameRecovered(ed: M.Ed25519, ctx: M.Ctx, ghost origin: nat, account: M.Account, round: U64, succeeded: bool)
      returns (settled: bool)
      modifies this
      ensures Does(ed, ctx, M.OnNameRecovered(origin, account, round, succeeded), settled)
    {
      settled := SettleNameResolving(account, round, succeeded);
    }

    method ClaimNameFinalized(ed: M.Ed25519, ctx: M.Ctx, account: M.Account, round: U64, settled: bool)
      returns (ok: bool)
      modifies this
      ensures Does(ed, ctx, M.ClaimNameFinalized(account, round, settled), ok)
    {
      if !M.IsInstaller(Snapshot(), ctx) {
        return false;
      }
      ok := SettleNameResolving(account, round, settled);
    }

    method OnSigned(ed: M.Ed25519, ctx: M.Ctx, ghost origin: nat, account: M.Account, round: U64) returns (reverted: bool)
      modifies this
      ensures Does(ed, ctx, M.OnSigned(origin, account, round), reverted)
    {
      if account !in accounts {
        return false;
      }
      var entry := accounts[account];
      if !entry.phase.Resolving? || entry.phase.round != round {
        return false;
      }
      accounts := accounts[account := entry.(phase := M.Approved(entry.phase.newKey, round))];
      return true;
    }

    method ClaimNativeFinalized(ed: M.Ed25519, ctx: M.Ctx, account: M.Account, round: U64) returns (ok: bool)
      modifies this
      ensures Does(ed, ctx, M.ClaimNativeFinalized(account, round), ok)
    {
      if !M.IsInstaller(Snapshot(), ctx) || account !in accounts {
        return false;
      }
      var entry := accounts[account];
      if !entry.phase.Approved? || entry.phase.round != round {
        return false;
      }
      accounts := accounts[account := entry.(phase := M.Idle)];
      return true;
    }

    /** Answers whether the policy is gone; a signing request in flight defers the reset. */
    method OnWalletTransferred(ed: M.Ed25519, ctx: M.Ctx, wallet: M.Account) returns (ok: bool, reset: bool)
      modifies this
      ensures Does(ed, ctx, M.WalletTransferred(wallet), ok)
      ensures ok ==> (reset <==> wallet !in accounts)
    {
      if ctx.caller != transferAuthority {
        return false, false;
      }
      if wallet !in accounts {
        return true, true;
      }
      if accounts[wallet].phase.Resolving? {
        return true, false;
      }
      roundFloor := roundFloor[wallet := accounts[wallet].round];
      accounts := accounts - {wallet};
      return true, true;
    }
  }
}
