/**
 The registrar opener (`registrar-opener`) as values: batches of top-level names that are
 drafted, approved by digest and opened asynchronously. The host's hash and JSON reader are
 parameters.
 */
module OpenerModel {
  import opened Bytes
  import opened Common

  const MIN_FUNDING: nat := 10_000_000_000_000_000_000_000
  const MAX_NAMES_PER_CALL: nat := 11
  const MAX_NAMES_PER_ADD: nat := 100
  const MAX_LIVE_BATCHES: nat := 4
  const MAX_INIT_ARGS_LEN: nat := 1024
  const MIN_TLA_LEN: nat := 3
  const MAX_TLA_LEN: nat := 64

  /** The ASCII bytes of "registrar-opener:batch:v2". */
  const DIGEST_DOMAIN: seq<Byte> :=
    [114, 101, 103, 105, 115, 116, 114, 97, 114, 45, 111, 112, 101, 110, 101, 114, 58, 98, 97, 116, 99, 104, 58, 118, 50]

  type Name = seq<Byte>

  type Digest = d: seq<Byte> | |d| == 32 witness seq(32, _ => 0)

  type U128 = n: int | 0 <= n <= MAX_U128

  datatype Host = Host(sha256: seq<Byte> -> Digest, jsonObject: seq<Byte> -> bool)

  /** What every name of a batch is opened with. */
  datatype Setup = Setup(globalCode: Text, initArgs: Text, funding: U128)

  datatype Batch = Batch(approved: bool, digest: Digest, count: nat, remaining: nat, setup: Setup)

  datatype State = State(
    self: Name,
    admin: Name,
    pendingAdmin: Option<Name>,
    operator: Name,
    batches: map<nat, Batch>,
    nextBatchId: nat,
    openedCount: nat,
    failedCount: nat,
    names: map<nat, set<Name>>)

  datatype Ctx = Ctx(caller: Name, deposit: nat)

  datatype Call =
    | CreateBatch(setup: Setup)
    | AddNames(batchId: nat, added: seq<Name>)
    | ApproveBatch(batchId: nat, digest: Digest)
    | DiscardBatch(batchId: nat)
    | ForgetNames(batchId: nat, forgotten: seq<Name>)
    | OpenNames(batchId: nat, opening: seq<Name>)
    | ChangeOperator(operator: Name)
    | ChangeAdmin(admin: Name)
    | AcceptAdmin
    | CancelNomination

  // ---------------------------------------------------------------- digests

  function SeedBytes(setup: Setup): seq<Byte> {
    DIGEST_DOMAIN + (TextBytes(setup.globalCode) + (TextBytes(setup.initArgs) + LeBytes(setup.funding, 16)))
  }

  function SeedDigest(h: Host, setup: Setup): Digest {
    h.sha256(SeedBytes(setup))
  }

  function FoldDigest(h: Host, digest: Digest, name: Name): Digest {
    h.sha256(digest + name)
  }

  /** The digest of a whole list, folded name by name. */
  function ListDigest(h: Host, digest: Digest, names: seq<Name>): Digest {
    if names == [] then digest
    else FoldDigest(h, ListDigest(h, digest, names[..|names| - 1]), names[|names| - 1])
  }

  // ---------------------------------------------------------------- checks

  predicate IsHex(c: Byte) {
    48 <= c <= 57 || 97 <= c <= 102
  }

  /** Implicit ids: 64 hex digits, or "0x" or "0s" and 40 hex digits. */
  predicate IsImplicit(n: Name) {
    || (|n| == 64 && forall i | 0 <= i < 64 :: IsHex(n[i]))
    || (|n| == 42 && n[0] == 48 && (n[1] == 120 || n[1] == 115) && forall i | 2 <= i < 42 :: IsHex(n[i]))
  }

  /** A name reaches the contract only as a well-formed account id; the rest is its own check. */
  predicate OpenableName(n: Name) {
    && ValidAccountId(n)
    && (forall i | 0 <= i < |n| :: n[i] != 46)
    && MIN_TLA_LEN <= |n| <= MAX_TLA_LEN
    && !IsImplicit(n)
  }

  predicate NoRepeats(names: seq<Name>) {
    forall i, j | 0 <= i < j < |names| :: names[i] != names[j]
  }

  predicate Openable(names: seq<Name>) {
    names != [] && NoRepeats(names) && forall i | 0 <= i < |names| :: OpenableName(names[i])
  }

  predicate ValidSetup(s: State, h: Host, setup: Setup) {
    && setup.funding >= MIN_FUNDING
    && ValidAccountId(setup.globalCode)
    && setup.globalCode != s.self
    && |setup.initArgs| <= MAX_INIT_ARGS_LEN
    && h.jsonObject(setup.initArgs)
  }

  function NamesOf(s: State, id: nat): set<Name> {
    if id in s.names then s.names[id] else {}
  }

  predicate AdminCall(s: State, ctx: Ctx) {
    ctx.deposit == 1 && ctx.caller == s.admin
  }

  predicate OperatorCall(s: State, ctx: Ctx) {
    ctx.deposit == 1 && ctx.caller == s.operator
  }

  // ---------------------------------------------------------------- calls

  function New(self: Name, admin: Name, operator: Name): Option<State> {
    if admin != operator && admin != self && operator != self
    then Some(State(self, admin, None, operator, map[], 0, 0, 0, map[])) else None
  }

  function Create(s: State, h: Host, ctx: Ctx, setup: Setup): Option<State> {
    if OperatorCall(s, ctx) && ValidSetup(s, h, setup) && |s.batches| < MAX_LIVE_BATCHES
    then
      var batch := Batch(false, SeedDigest(h, setup), 0, 0, setup);
      Some(s.(batches := s.batches[s.nextBatchId := batch], nextBatchId := s.nextBatchId + 1))
    else None
  }

  function Add(s: State, h: Host, ctx: Ctx, id: nat, names: seq<Name>): Option<State> {
    if && OperatorCall(s, ctx)
       && |names| <= MAX_NAMES_PER_ADD
       && Openable(names)
       && id in s.batches
       && !s.batches[id].approved
       && (forall i | 0 <= i < |names| :: names[i] !in NamesOf(s, id))
    then
      var b := s.batches[id];
      Some(s.(names := s.names[id := NamesOf(s, id) + Elements(names)],
              batches := s.batches[id := b.(digest := ListDigest(h, b.digest, names),
                                            count := b.count + |names|,
                                            remaining := b.remaining + |names|)]))
    else None
  }

  function Approve(s: State, ctx: Ctx, id: nat, digest: Digest): Option<State> {
    if && AdminCall(s, ctx)
       && id in s.batches
       && !s.batches[id].approved
       && s.batches[id].remaining > 0
       && s.batches[id].digest == digest
    then Some(s.(batches := s.batches[id := s.batches[id].(approved := true)]))
    else None
  }

  function Discard(s: State, ctx: Ctx, id: nat): Option<State> {
    if && ctx.deposit == 1
       && (ctx.caller == s.operator || ctx.caller == s.admin)
       && id in s.batches
       && (ctx.caller == s.admin || s.batches[id].remaining == 0 || !s.batches[id].approved)
    then Some(s.(batches := s.batches - {id}))
    else None
  }

  function Forget(s: State, ctx: Ctx, id: nat, names: seq<Name>): Option<State> {
    if && ctx.deposit == 1
       && (ctx.caller == s.operator || ctx.caller == s.admin)
       && 0 < |names| <= MAX_NAMES_PER_ADD
       && id < s.nextBatchId
       && id !in s.batches
    then Some(s.(names := s.names[id := NamesOf(s, id) - Elements(names)]))
    else None
  }

  function Open(s: State, ctx: Ctx, id: nat, names: seq<Name>): Option<State> {
    if && ctx.caller == s.operator
       && |names| <= MAX_NAMES_PER_CALL
       && Openable(names)
       && id in s.batches
       && s.batches[id].approved
       && ctx.deposit == s.batches[id].setup.funding * |names|
       && (forall i | 0 <= i < |names| :: names[i] in NamesOf(s, id))
    then
      var b := s.batches[id];
      Some(s.(names := s.names[id := NamesOf(s, id) - Elements(names)],
              batches := s.batches[id := b.(remaining := SatSub(b.remaining, |names|))]))
    else None
  }

  /** `on_name_opened`: a failed name goes back on the list, if its batch still stands. */
  function OnNameOpened(s: State, id: nat, name: Name, succeeded: bool): State {
    if succeeded then s.(openedCount := s.openedCount + 1)
    else
      var counted := s.(failedCount := s.failedCount + 1);
      if id !in s.batches || name in NamesOf(s, id) then counted
      else counted.(names := s.names[id := NamesOf(s, id) + {name}],
                    batches := s.batches[id := s.batches[id].(remaining := s.batches[id].remaining + 1)])
  }

  function Apply(s: State, h: Host, ctx: Ctx, c: Call): Option<State> {
    match c
    case CreateBatch(setup) => Create(s, h, ctx, setup)
    case AddNames(id, names) => Add(s, h, ctx, id, names)
    case ApproveBatch(id, digest) => Approve(s, ctx, id, digest)
    case DiscardBatch(id) => Discard(s, ctx, id)
    case ForgetNames(id, names) => Forget(s, ctx, id, names)
    case OpenNames(id, names) => Open(s, ctx, id, names)
    case ChangeOperator(operator) =>
      if AdminCall(s, ctx) && operator != s.admin && s.pendingAdmin != Some(operator) && operator != s.self
      then Some(s.(operator := operator)) else None
    case ChangeAdmin(admin) =>
      if AdminCall(s, ctx) && admin != s.operator && admin != s.self
      then Some(s.(pendingAdmin := Some(admin))) else None
    case AcceptAdmin =>
      if ctx.deposit == 1 && s.pendingAdmin == Some(ctx.caller) && ctx.caller != s.operator
      then Some(s.(admin := ctx.caller, pendingAdmin := None)) else None
    case CancelNomination =>
      if AdminCall(s, ctx) && s.pendingAdmin.Some? then Some(s.(pendingAdmin := None)) else None
  }
}
