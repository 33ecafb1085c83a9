/**
 The recovery contract (`mpc-recovery`) as values: per-account policies, rounds and phases, the
 calls and the two promise callbacks. Signature checking is a parameter.
 */
module RecoveryModel {
  import opened Bytes
  import opened Common
  import opened RecoveryMessages

  const ABORT_COOLDOWN_NS: nat := 600 * NS_PER_SEC
  const HOLDER_ABORT_COOLDOWN_NS: nat := 24 * 60 * 60 * NS_PER_SEC
  const MIN_TIMELOCK_SECS: nat := 60
  const MAX_TIMELOCK_SECS: nat := 2_592_000
  const MIN_WATCHER_THRESHOLD: nat := 2
  const MAX_WATCHERS: nat := 32

  type Account = Text

  /** The host's ed25519: which keys it calls weak or malformed, and which signatures verify. */
  datatype Ed25519 = Ed25519(weak: seq<Byte> -> bool, check: (seq<Byte>, seq<Byte>, seq<Byte>) -> bool)

  predicate Verify(ed: Ed25519, message: seq<Byte>, signature: seq<Byte>, key: PublicKey) {
    IsEd25519(key) && !ed.weak(key[1..]) && ed.check(signature, message, key[1..])
  }

  datatype Signed = Signed(key: PublicKey, signature: seq<Byte>)

  /** The watchers that some submitted 64-byte signature speaks for, each once. */
  function ValidSigners(ed: Ed25519, message: seq<Byte>, signatures: seq<Signed>, watchers: seq<PublicKey>)
    : set<PublicKey>
  {
    set w | w in watchers
            && exists i :: 0 <= i < |signatures| && signatures[i].key == w && |signatures[i].signature| == 64
                           && Verify(ed, message, signatures[i].signature, w)
  }

  predicate Quorum(ed: Ed25519, message: seq<Byte>, signatures: seq<Signed>, watchers: seq<PublicKey>, threshold: nat) {
    |ValidSigners(ed, message, signatures, watchers)| >= threshold
  }

  datatype ArmedPolicy = ArmedPolicy(attestationKey: PublicKey, timelockSecs: nat)

  datatype Policy = Policy(mpcKey: PublicKey, attestationKey: PublicKey, timelockSecs: nat)

  datatype Phase =
    | Idle
    | Requested(newKey: PublicKey, round: U64, requestedAt: nat)
    | Approved(newKey: PublicKey, round: U64)
    | Resolving(newKey: PublicKey, round: U64)
    | NameRequested(newOwner: Account, round: U64, requestedAt: nat)
    | NameResolving(newOwner: Account, round: U64, requestedAt: nat)
    | Cooldown(until: nat)
  {
    predicate Settled() {
      Idle? || Cooldown?
    }

    predicate AcceptsRequest(now: nat) {
      Idle? || (Cooldown? && now >= until)
    }
  }

  datatype Entry = Entry(policy: Policy, round: U64, phase: Phase)

  datatype State = State(
    self: Account,
    owner: Account,
    installer: Account,
    transferAuthority: Account,
    watchers: seq<PublicKey>,
    threshold: nat,
    accounts: map<Account, Entry>,
    roundFloor: map<Account, U64>,
    armed: map<Account, ArmedPolicy>,
    registry: Option<Account>,
    pendingOwner: Option<Account>)

  datatype Ctx = Ctx(caller: Account, deposit: nat, now: nat)

  /** `origin` names the step that dispatched the promise a callback resolves. */
  datatype Call =
    | SetWatchers(watchers: seq<PublicKey>, threshold: nat)
    | SetInstaller(installer: Account)
    | ApproveOwnerRotation(newContractOwner: Account)
    | CancelOwnerRotation
    | CommitOwnerRotation
    | SetRegistry(registry: Account)
    | Arm(attestationKey: PublicKey, timelockSecs: nat)
    | Disarm
    | Install(account: Account, mpcKey: PublicKey, attestationKey: PublicKey, timelockSecs: nat)
    | RequestRecovery(account: Account, newKey: PublicKey, round: U64, attestation: seq<Byte>)
    | RequestNameRecovery(tla: Text, name: Text, newOwner: Account, attestation: seq<Byte>)
    | SubmitVerdict(account: Account, approve: bool, signatures: seq<Signed>)
    | FinalizeRecovery(account: Account)
    | RecoverName(tla: Text, name: Text, newOwner: Account, expectedOwner: Account, deadline: U64,
                  signatures: seq<Signed>)
    | AbortRecovery(account: Account)
    | ClaimNativeFinalized(account: Account, round: U64)
    | ClaimNameFinalized(account: Account, round: U64, settled: bool)
    | WalletTransferred(wallet: Account)
    | OnSigned(origin: nat, account: Account, round: U64)
    | OnNameRecovered(origin: nat, account: Account, round: U64, succeeded: bool)

  // ---------------------------------------------------------------- account ids

  /** `leased_account_id`: the account a name stands for, if that is an account at all. */
  function LeasedAccount(tla: Text, name: Text): Option<Account> {
    var id := name + [46] + tla;
    if ValidAccountId(id) then Some(id) else None
  }

  // ---------------------------------------------------------------- governance and policies

  predicate ValidWatchers(watchers: seq<PublicKey>, threshold: nat) {
    && MIN_WATCHER_THRESHOLD <= threshold <= |watchers| <= MAX_WATCHERS
    && (forall i | 0 <= i < |watchers| :: IsEd25519(watchers[i]))
    && (forall i, j | 0 <= i < j < |watchers| :: watchers[i] != watchers[j])
  }

  predicate ValidTimelock(secs: nat) {
    MIN_TIMELOCK_SECS <= secs <= MAX_TIMELOCK_SECS
  }

  function New(self: Account, owner: Account, transferAuthority: Account, watchers: seq<PublicKey>, threshold: nat)
    : Option<State>
  {
    if ValidWatchers(watchers, threshold) && owner != self
    then Some(State(self, owner, owner, transferAuthority, watchers, threshold, map[], map[], map[], None, None))
    else None
  }

  predicate OneYocto(ctx: Ctx) {
    ctx.deposit == 1
  }

  predicate IsInstaller(s: State, ctx: Ctx) {
    ctx.caller == s.installer || ctx.caller == s.owner
  }

  predicate OwnerCall(s: State, ctx: Ctx) {
    OneYocto(ctx) && ctx.caller == s.owner
  }

  function Govern(s: State, ctx: Ctx, c: Call): Option<State> {
    match c
    case SetWatchers(watchers, threshold) =>
      if OwnerCall(s, ctx) && ValidWatchers(watchers, threshold)
      then Some(s.(watchers := watchers, threshold := threshold)) else None
    case SetInstaller(installer) =>
      if OwnerCall(s, ctx) then Some(s.(installer := installer)) else None
    case ApproveOwnerRotation(next) =>
      if OwnerCall(s, ctx) && next != s.owner && next != s.self
      then Some(s.(pendingOwner := Some(next))) else None
    case CancelOwnerRotation =>
      if OwnerCall(s, ctx) && s.pendingOwner.Some? then Some(s.(pendingOwner := None)) else None
    case CommitOwnerRotation =>
      if OneYocto(ctx) && s.pendingOwner.Some? && (ctx.caller == s.pendingOwner.value || ctx.caller == s.owner)
      then Some(s.(owner := s.pendingOwner.value, pendingOwner := None)) else None
    case SetRegistry(registry) =>
      if OwnerCall(s, ctx) && registry != s.self then Some(s.(registry := Some(registry))) else None
    case _ => None
  }

  function FloorOf(s: State, a: Account): U64 {
    if a in s.roundFloor then s.roundFloor[a] else 0
  }

  function InstallPolicy(s: State, ctx: Ctx, a: Account, policy: Policy): Option<State> {
    if !IsInstaller(s, ctx) || !ValidTimelock(policy.timelockSecs)
       || !IsEd25519(policy.attestationKey) || !IsEd25519(policy.mpcKey) then None
    else if a in s.accounts then
      var held := s.accounts[a];
      if held.phase.Settled() && ctx.caller == s.owner
      then Some(s.(accounts := s.accounts[a := Entry(policy, held.round, held.phase)]))
      else None
    else if a in s.armed && s.armed[a] == ArmedPolicy(policy.attestationKey, policy.timelockSecs)
    then Some(s.(armed := s.armed - {a}, accounts := s.accounts[a := Entry(policy, FloorOf(s, a), Idle)]))
    else None
  }

  // ---------------------------------------------------------------- one account's entry

  function Attested(ed: Ed25519, e: Entry, now: nat, message: seq<Byte>, attestation: seq<Byte>): bool {
    && e.phase.AcceptsRequest(now)
    && |attestation| == 64
    && Verify(ed, message, attestation, e.policy.attestationKey)
    && e.round + 1 <= MAX_U64
  }

  function RequestEntry(s: State, ed: Ed25519, e: Entry, now: nat, c: Call): Option<Entry>
    requires c.RequestRecovery?
  {
    var message := Request(s.self, c.account, c.newKey, e.round);
    if c.round == e.round && Attested(ed, e, now, Encode(message), c.attestation)
    then Some(e.(phase := Requested(c.newKey, e.round, now), round := e.round + 1))
    else None
  }

  function RequestNameEntry(s: State, ed: Ed25519, e: Entry, now: nat, c: Call): Option<Entry>
    requires c.RequestNameRecovery?
  {
    var message := NameRequest(s.self, c.tla, c.name, c.newOwner, e.round);
    if Attested(ed, e, now, Encode(message), c.attestation)
    then Some(e.(phase := NameRequested(c.newOwner, e.round, now), round := e.round + 1))
    else None
  }

  function VerdictEntry(s: State, ed: Ed25519, e: Entry, now: nat, c: Call): Option<Entry>
    requires c.SubmitVerdict?
  {
    if !e.phase.Requested? || now < e.phase.requestedAt + e.policy.timelockSecs * NS_PER_SEC then None
    else
      var message := Verdict(s.self, c.account, e.phase.newKey, e.phase.round, c.approve);
      if !Quorum(ed, Encode(message), c.signatures, s.watchers, s.threshold) then None
      else Some(e.(phase := if c.approve then Approved(e.phase.newKey, e.phase.round) else Idle))
  }

  function RecoverNameEntry(s: State, ed: Ed25519, e: Entry, now: nat, c: Call): Option<Entry>
    requires c.RecoverName?
  {
    if !e.phase.NameRequested? || e.phase.newOwner != c.newOwner
       || now < e.phase.requestedAt + e.policy.timelockSecs * NS_PER_SEC then None
    else
      var message := NameRecovery(s.self, c.tla, c.name, c.newOwner, c.expectedOwner, c.deadline, e.phase.round);
      if !Quorum(ed, Encode(message), c.signatures, s.watchers, s.threshold) then None
      else Some(e.(phase := NameResolving(c.newOwner, e.phase.round, e.phase.requestedAt)))
  }

  function AbortEntry(e: Entry, now: nat, byHolder: bool): Option<Entry> {
    if e.phase.Requested? || e.phase.Approved? || e.phase.NameRequested?
    then Some(e.(phase := Cooldown(now + if byHolder then HOLDER_ABORT_COOLDOWN_NS else ABORT_COOLDOWN_NS)))
    else None
  }

  /** `settle_resolving(.., false)`: a returned signing request can be made again. */
  function SettleSigning(e: Entry, round: U64): Option<Entry> {
    if e.phase.Resolving? && e.phase.round == round
    then Some(e.(phase := Approved(e.phase.newKey, round))) else None
  }

  /** `settle_name_resolving`: done, or back to a request that still needs its quorum. */
  function SettleName(e: Entry, round: U64, done: bool): Option<Entry> {
    if e.phase.NameResolving? && e.phase.round == round
    then Some(e.(phase := if done then Idle else NameRequested(e.phase.newOwner, round, e.phase.requestedAt)))
    else None
  }

  // ---------------------------------------------------------------- calls

  /** The account a call is about, when it works on one account's entry. */
  function Subject(c: Call): Option<Account> {
    match c
    case RequestRecovery(a, _, _, _) => Some(a)
    case RequestNameRecovery(tla, name, _, _) => LeasedAccount(tla, name)
    case SubmitVerdict(a, _, _) => Some(a)
    case FinalizeRecovery(a) => Some(a)
    case RecoverName(tla, name, _, _, _, _) => LeasedAccount(tla, name)
    case AbortRecovery(a) => Some(a)
    case ClaimNativeFinalized(a, _) => Some(a)
    case ClaimNameFinalized(a, _, _) => Some(a)
    case OnSigned(_, a, _) => Some(a)
    case OnNameRecovered(_, a, _, _) => Some(a)
    case _ => None
  }

  /** What the call makes of that account's entry. */
  function NextEntry(s: State, ed: Ed25519, ctx: Ctx, c: Call, e: Entry): Option<Entry> {
    match c
    case RequestRecovery(_, _, _, _) => RequestEntry(s, ed, e, ctx.now, c)
    case RequestNameRecovery(_, _, _, _) => RequestNameEntry(s, ed, e, ctx.now, c)
    case SubmitVerdict(_, _, _) => VerdictEntry(s, ed, e, ctx.now, c)
    case FinalizeRecovery(_) =>
      if IsInstaller(s, ctx) && e.phase.Approved?
      then Some(e.(phase := Resolving(e.phase.newKey, e.phase.round))) else None
    case RecoverName(_, _, _, _, deadline, _) =>
      if OneYocto(ctx) && s.registry.Some? && ctx.now < deadline
      then RecoverNameEntry(s, ed, e, ctx.now, c) else None
    case AbortRecovery(a) =>
      if IsInstaller(s, ctx) || ctx.caller == a then AbortEntry(e, ctx.now, ctx.caller == a) else None
    case ClaimNativeFinalized(_, round) =>
      if IsInstaller(s, ctx) && e.phase.Approved? && e.phase.round == round
      then Some(e.(phase := Idle)) else None
    case ClaimNameFinalized(_, round, settled) =>
      if IsInstaller(s, ctx) then SettleName(e, round, settled) else None
    case OnSigned(_, _, round) => SettleSigning(e, round)
    case OnNameRecovered(_, _, round, succeeded) => SettleName(e, round, succeeded)
    case _ => None
  }

  /** `on_wallet_transferred`: a new owner starts without a policy, but never from an older round. */
  function ResetPolicy(s: State, ctx: Ctx, wallet: Account): Option<State> {
    if ctx.caller != s.transferAuthority then None
    else if wallet !in s.accounts || s.accounts[wallet].phase.Resolving? then Some(s)
    else Some(s.(roundFloor := s.roundFloor[wallet := s.accounts[wallet].round], accounts := s.accounts - {wallet}))
  }

  function Apply(s: State, ed: Ed25519, ctx: Ctx, c: Call): Option<State> {
    match c
    case Arm(key, secs) =>
      if OneYocto(ctx) && IsEd25519(key) && ValidTimelock(secs)
      then Some(s.(armed := s.armed[ctx.caller := ArmedPolicy(key, secs)])) else None
    case Disarm =>
      if OneYocto(ctx) && ctx.caller in s.armed then Some(s.(armed := s.armed - {ctx.caller})) else None
    case Install(a, mpcKey, attestationKey, secs) =>
      InstallPolicy(s, ctx, a, Policy(mpcKey, attestationKey, secs))
    case WalletTransferred(wallet) => ResetPolicy(s, ctx, wallet)
    case _ =>
      var subject := Subject(c);
      if subject.None? then Govern(s, ctx, c)
      else if subject.value !in s.accounts then None
      else
        var e := NextEntry(s, ed, ctx, c, s.accounts[subject.value]);
        if e.None? then None else Some(s.(accounts := s.accounts[subject.value := e.value]))
  }
}
