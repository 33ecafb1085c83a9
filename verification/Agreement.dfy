/**
 The registry and the wallets together: when chains on one name do not overlap, every settled
 chain leaves the registry's entry and the wallet in agreement, whether it succeeded or failed.
 */
module Agreement {
  import opened Common
  import opened RegistryTypes
  import opened NameTable
  import opened RegistryModel
  import opened IndexRuns
  import W = WalletModel

  /** A chain and, once its last leg has run, what that leg reports to the registry. */
  datatype Chain = Chain(flight: Flight, answer: Option<Outcome>)

  /** `extension` is the relay contract: the authority of every wallet. */
  datatype World = World(extension: AccountId, reg: Registry, wallets: map<Key, W.Wallet>, chains: seq<Chain>)

  /** What the outside contributes to a leg: whether the relay works, a free outcome, what a broken mint left behind. */
  datatype Reply = Reply(works: bool, outcome: Outcome, left: Option<W.Wallet>, collection: AccountId, timeoutSecs: nat)

  datatype Event =
    | Ask(x: Ctx, call: Call)
    | Relay(now: nat, which: nat, reply: Reply)
    | Answer(at: nat, chain: nat)
    | Local(key: Key, ctx: W.Ctx, walletCall: W.Call)

  function KeyOfFlight(f: Flight): Key
    requires !f.RefundFlight?
  {
    KeyOf(FlightTla(f), FlightName(f))
  }

  // ---------------------------------------------------------------- the legs

  datatype Leg = Leg(wallet: Option<W.Wallet>, outcome: Outcome)

  predicate CallsWallet(f: Flight) {
    !f.MintFlight? && !f.ReRentGate? && !f.MoveGate? && !f.ReclaimGate? && !f.ReceiverFlight? && !f.RefundFlight?
  }

  /** The wallet call a chain relays through the extension. */
  function Relayed(f: Flight): W.Call
    requires CallsWallet(f)
  {
    match f
    case ReRentFlight(m, payout, until) => W.Call.ReRent(m.owner, payout, until)
    case RenewFlight(_, _, until, _, _) => W.SetLease(until, OperatingState.Active)
    case PayoutFlight(_, _, payout, expected) => W.SetPayoutAccount(payout, expected)
    case MoveFlight(_, _, _, from, to, cause) => W.TransferOwnership(Some(to), cause, Some(from))
    case ReturnFlight(_, _, _, to) => W.TransferOwnership(Some(to), RotationCause.Revert, None)
    case RecoverFlight(_, _, _, to) => W.TransferOwnership(Some(to), RotationCause.Recovery, None)
    case RetractFlight(_, _, until) => W.RetractLease(until)
    case NoticeFlight(_, _, until) => W.RetractLease(until)
    case RestoreFlight(_, _, until) => W.SetLease(until, OperatingState.Active)
    case ReclaimFlight(_, _) => W.TransferOwnership(None, RotationCause.Reclaim, None)
  }

  /** A mint ends with a wallet initialised as asked, with none, or in doubt. */
  function MintLeg(ext: AccountId, w: Option<W.Wallet>, f: Flight, now: nat, r: Reply): Leg
    requires f.MintFlight?
  {
    if r.outcome.CreationFailed? then Leg(w, CreationFailed)
    else if r.outcome.Failed? then Leg(r.left, Failed)
    else
      var minted := W.Init(KeyOf(f.m.tla, f.m.name), W.Ctx(f.m.tla, 0, now, 0, 0),
                           W.Config(f.m.owner, ext, r.collection, f.payout, f.expiresAt, r.timeoutSecs));
      if minted.None? then Leg(r.left, Failed) else Leg(minted, Succeeded)
  }

  function RunLeg(ext: AccountId, w: Option<W.Wallet>, f: Flight, now: nat, r: Reply): Leg {
    if f.MintFlight? then MintLeg(ext, w, f, now, r)
    else if !CallsWallet(f) then Leg(w, r.outcome)
    else if !r.works || w.None? then Leg(w, Failed)
    else
      var after := W.Apply(w.value, W.Ctx(ext, 1, now, 0, 0), Relayed(f));
      if after.None? then Leg(w, Failed) else Leg(after, Succeeded)
  }

  function WalletAt(w: World, key: Key): Option<W.Wallet> {
    if key in w.wallets then Some(w.wallets[key]) else None
  }

  function WithWallet(m: map<Key, W.Wallet>, key: Key, w: Option<W.Wallet>): map<Key, W.Wallet> {
    if w.Some? then m[key := w.value] else m - {key}
  }

  /** Calls only a wallet's authority may make, and makes only for the registry's chains. */
  predicate Reserved(w: W.Wallet, ctx: W.Ctx, call: W.Call) {
    ctx.caller == w.authority && (call.SetPayoutAccount? || call.SetLease? || call.RetractLease? || call.TransferOwnership? || call.ReRent?)
  }

  function Extend(cs: seq<Chain>, f: Option<Flight>): seq<Chain> {
    if f.None? then cs else cs + [Chain(f.value, None)]
  }

  function Next(w: World, e: Event): World {
    match e
    case Ask(x, call) =>
      var done := Apply(w.reg, x, call);
      if done.None? then w else w.(reg := done.value.state, chains := Extend(w.chains, done.value.flight))
    case Relay(now, i, reply) =>
      if i >= |w.chains| || w.chains[i].answer.Some? then w
      else if w.chains[i].flight.RefundFlight? then w.(chains := w.chains[i := w.chains[i].(answer := Some(reply.outcome))])
      else
        var f := w.chains[i].flight;
        var leg := RunLeg(w.extension, WalletAt(w, KeyOfFlight(f)), f, now, reply);
        w.(wallets := WithWallet(w.wallets, KeyOfFlight(f), leg.wallet), chains := w.chains[i := Chain(f, Some(leg.outcome))])
    case Answer(now, i) =>
      if i >= |w.chains| || w.chains[i].answer.None? then w
      else
        var done := Settle(w.reg, now, w.chains[i].flight, w.chains[i].answer.value);
        if done.None? then w.(chains := Without(w.chains, i))
        else w.(reg := done.value.state, chains := Extend(Without(w.chains, i), done.value.flight))
    case Local(key, ctx, call) =>
      if key !in w.wallets || Reserved(w.wallets[key], ctx, call) then w
      else w.(wallets := w.wallets[key := W.After(w.wallets[key], ctx, call)])
  }

  /** No call starts a chain on a name that has one. */
  ghost predicate Apart(w: World, e: Event) {
    e.Ask? && Apply(w.reg, e.x, e.call).Some? ==>
      var f := Apply(w.reg, e.x, e.call).value.flight;
      f.Some? && !f.value.RefundFlight? ==> !Busy(w, KeyOfFlight(f.value))
  }

  predicate On(c: Chain, key: Key) {
    !c.flight.RefundFlight? && KeyOfFlight(c.flight) == key
  }

  ghost predicate Busy(w: World, key: Key) {
    exists i :: 0 <= i < |w.chains| && On(w.chains[i], key)
  }

  // ---------------------------------------------------------------- agreement

  /** Owner and payout agree, the wallet's lease is no longer than the entry's term, and as long unless a retraction is recorded. */
  predicate Matches(sub: Sub, w: Option<W.Wallet>) {
    && w.Some? && w.value.owner == sub.owner && w.value.payout == sub.payout
    && w.value.leaseUntil <= sub.expiresAt
    && (sub.retractionAt.None? ==> w.value.leaseUntil == sub.expiresAt)
  }

  /** The entry a chain was started on, as the wallet still knows it. */
  function Origin(sub: Sub, f: Flight): Sub {
    if f.RetractFlight? then sub.(retractionAt := None) else sub
  }

  /** The entry the chain will leave if it succeeds. */
  function Target(sub: Sub, f: Flight): Sub {
    match f
    case RenewFlight(_, _, until, _, _) => sub.(expiresAt := until)
    case PayoutFlight(_, _, payout, _) => sub.(payout := payout)
    case MoveFlight(_, _, _, _, to, cause) => sub.(owner := to, payout := if cause.RepointsPayout() then to else sub.payout)
    case ReturnFlight(_, _, _, to) => sub.(owner := to, payout := to)
    case RecoverFlight(_, _, _, to) => sub.(owner := to, payout := to)
    case RestoreFlight(_, _, _) => sub.(retractionAt := None)
    case _ => sub
  }

  /** What the chain's callback will find unchanged. */
  predicate Expected(sub: Sub, f: Flight) {
    match f
    case MintFlight(_, m, payout, until, _) => sub.owner == m.owner && sub.payout == payout && sub.expiresAt == until && sub.retractionAt.None?
    case ReRentGate(m, payout, until) => sub.owner == m.owner && sub.payout == payout && sub.expiresAt == until && sub.retractionAt.None?
    case ReRentFlight(m, payout, until) => sub.owner == m.owner && sub.payout == payout && sub.expiresAt == until && sub.retractionAt.None?
    case PayoutFlight(_, _, _, expected) => sub.owner == expected
    case MoveGate(_, _, _, from, _, cause) => sub.owner == from && Handover(cause)
    case MoveFlight(_, _, _, from, _, cause) => sub.owner == from && Handover(cause)
    case ReturnFlight(_, _, from, _) => sub.owner == from
    case RecoverFlight(_, _, from, _) => sub.owner == from
    case RetractFlight(_, _, _) => sub.retractionAt.Some?
    case NoticeFlight(_, _, _) => sub.retractionAt.Some?
    case RestoreFlight(_, _, until) => sub.expiresAt == until
    case _ => true
  }

  predicate Handover(cause: RotationCause) {
    cause.Transfer? || cause.Deposit?
  }

  /** A chain in flight: before its wallet leg the wallet matches the origin, after a successful one the target. */
  predicate InStep(sub: Sub, w: Option<W.Wallet>, c: Chain) {
    && Expected(sub, c.flight)
    && if c.answer == Some(Succeeded) then (c.flight.ReRentGate? || c.flight.ReclaimFlight? || Matches(Target(sub, c.flight), w))
       else (c.flight.MintFlight? || c.flight.ReRentGate? || c.flight.ReRentFlight? || Matches(Origin(sub, c.flight), w))
  }

  ghost predicate ChainInStep(w: World, c: Chain) {
    c.flight.RefundFlight?
    || (KeyOfFlight(c.flight) in w.reg.names.subs
        && InStep(w.reg.names.subs[KeyOfFlight(c.flight)], WalletAt(w, KeyOfFlight(c.flight)), c))
  }

  ghost predicate Disjoint(cs: seq<Chain>) {
    forall i, j :: 0 <= i < j < |cs| && !cs[i].flight.RefundFlight? && !cs[j].flight.RefundFlight?
      ==> KeyOfFlight(cs[i].flight) != KeyOfFlight(cs[j].flight)
  }

  ghost predicate Agreed(w: World) {
    && Disjoint(w.chains)
    && (forall i :: 0 <= i < |w.chains| ==> ChainInStep(w, w.chains[i]))
    && (forall key :: key in w.reg.names.subs && !Busy(w, key) ==> Matches(w.reg.names.subs[key], WalletAt(w, key)))
  }

  // ---------------------------------------------------------------- a wallet leg

  lemma RotationLeg(sub: Sub, w: W.Wallet, f: Flight, ctx: W.Ctx)
    requires (f.MoveFlight? || f.ReturnFlight? || f.RecoverFlight?) && Expected(sub, f) && Matches(sub, Some(w))
    requires W.Apply(w, ctx, Relayed(f)).Some?
    ensures Matches(Target(sub, f), W.Apply(w, ctx, Relayed(f)))
  {
  }

  lemma LeaseLeg(sub: Sub, w: W.Wallet, f: Flight, ctx: W.Ctx)
    requires (f.RenewFlight? || f.PayoutFlight? || f.RetractFlight? || f.NoticeFlight? || f.RestoreFlight?) && Expected(sub, f)
    requires Matches(Origin(sub, f), Some(w)) && W.Apply(w, ctx, Relayed(f)).Some?
    ensures Matches(Target(sub, f), W.Apply(w, ctx, Relayed(f)))
  {
  }

  lemma ReRentLeg(sub: Sub, w: W.Wallet, f: Flight, ctx: W.Ctx)
    requires f.ReRentFlight? && Expected(sub, f) && W.Apply(w, ctx, Relayed(f)).Some?
    ensures Matches(sub, W.Apply(w, ctx, Relayed(f)))
  {
  }

  lemma LegInStep(ext: AccountId, sub: Sub, w: Option<W.Wallet>, f: Flight, now: nat, r: Reply)
    requires !f.RefundFlight? && InStep(sub, w, Chain(f, None))
    ensures var leg := RunLeg(ext, w, f, now, r); InStep(sub, leg.wallet, Chain(f, Some(leg.outcome)))
  {
    if CallsWallet(f) && r.works && w.Some? {
      var ctx := W.Ctx(ext, 1, now, 0, 0);
      if W.Apply(w.value, ctx, Relayed(f)).Some? {
        if f.ReRentFlight? {
          ReRentLeg(sub, w.value, f, ctx);
        } else if f.MoveFlight? || f.ReturnFlight? || f.RecoverFlight? {
          RotationLeg(sub, w.value, f, ctx);
        } else if !f.ReclaimFlight? {
          LeaseLeg(sub, w.value, f, ctx);
        }
      }
    }
  }

  // ---------------------------------------------------------------- a settled chain

  /** After a chain on `key` is settled, either it goes on in step or the entry, if any, agrees with the wallet. */
  ghost predicate Landed(s: Registry, key: Key, w: Option<W.Wallet>, g: Option<Flight>) {
    if g.Some? then
      && !g.value.RefundFlight? && KeyOfFlight(g.value) == key && key in s.names.subs
      && InStep(s.names.subs[key], w, Chain(g.value, None))
    else key in s.names.subs ==> Matches(s.names.subs[key], w)
  }

  lemma MintLands(s: Registry, now: nat, f: Flight, w: Option<W.Wallet>, outcome: Outcome)
    requires f.MintFlight? || f.ReRentGate? || f.ReRentFlight?
    requires KeyOfFlight(f) in s.names.subs && InStep(s.names.subs[KeyOfFlight(f)], w, Chain(f, Some(outcome)))
    ensures Settle(s, now, f, outcome).Some?
    ensures Landed(Settle(s, now, f, outcome).value.state, KeyOfFlight(f), w, Settle(s, now, f, outcome).value.flight)
  {
  }

  lemma MoveLands(s: Registry, now: nat, f: Flight, w: Option<W.Wallet>, outcome: Outcome)
    requires f.MoveFlight? || f.ReturnFlight? || f.RecoverFlight?
    requires KeyOfFlight(f) in s.names.subs && InStep(s.names.subs[KeyOfFlight(f)], w, Chain(f, Some(outcome)))
    ensures var done := Settle(s, now, f, outcome);
            if done.None? then Matches(s.names.subs[KeyOfFlight(f)], w)
            else Landed(done.value.state, KeyOfFlight(f), w, done.value.flight)
  {
  }

  lemma OtherLands(s: Registry, now: nat, f: Flight, w: Option<W.Wallet>, outcome: Outcome)
    requires !f.MintFlight? && !f.ReRentGate? && !f.ReRentFlight? && !f.MoveFlight? && !f.ReturnFlight? && !f.RecoverFlight? && !f.RefundFlight?
    requires KeyOfFlight(f) in s.names.subs && InStep(s.names.subs[KeyOfFlight(f)], w, Chain(f, Some(outcome)))
    ensures var done := Settle(s, now, f, outcome);
            if done.None? then Matches(s.names.subs[KeyOfFlight(f)], w)
            else Landed(done.value.state, KeyOfFlight(f), w, done.value.flight)
  {
  }

  lemma Lands(s: Registry, now: nat, f: Flight, w: Option<W.Wallet>, outcome: Outcome)
    requires !f.RefundFlight?
    requires KeyOfFlight(f) in s.names.subs && InStep(s.names.subs[KeyOfFlight(f)], w, Chain(f, Some(outcome)))
    ensures var done := Settle(s, now, f, outcome);
            if done.None? then Matches(s.names.subs[KeyOfFlight(f)], w)
            else Landed(done.value.state, KeyOfFlight(f), w, done.value.flight)
  {
    if f.MintFlight? || f.ReRentGate? || f.ReRentFlight? {
      MintLands(s, now, f, w, outcome);
    } else if f.MoveFlight? || f.ReturnFlight? || f.RecoverFlight? {
      MoveLands(s, now, f, w, outcome);
    } else {
      OtherLands(s, now, f, w, outcome);
    }
  }

  lemma RefundLaunchesNothing(s: Registry, now: nat, f: Flight, outcome: Outcome)
    requires f.RefundFlight?
    ensures Settle(s, now, f, outcome).Some? && Settle(s, now, f, outcome).value.flight.None?
    ensures Settle(s, now, f, outcome).value.state.names == s.names
  {
  }

  // ---------------------------------------------------------------- a call to the registry

  /** A call that starts no chain on a name leaves all entries alone; one that does touches only that name and starts in step. */
  ghost predicate Started(s: Registry, s': Registry, key: Key, w: Option<W.Wallet>, f: Flight) {
    && key in s'.names.subs
    && (key in s.names.subs && Matches(s.names.subs[key], w) ==> InStep(s'.names.subs[key], w, Chain(f, None)))
    && (key !in s.names.subs ==> InStep(s'.names.subs[key], w, Chain(f, None)))
  }

  lemma LeaseStarts(s: Registry, now: nat, kind: MintKind, m: Settlement, payout: AccountId, reRent: bool, w: Option<W.Wallet>)
    requires KeyOf(m.tla, m.name) !in s.names.subs
    ensures var done, key := StartMint(s, now, kind, m, payout, reRent), KeyOf(m.tla, m.name);
            && done.flight.Some? && !done.flight.value.RefundFlight? && KeyOfFlight(done.flight.value) == key
            && Started(s, done.state, key, w, done.flight.value)
            && done.state.names.subs == s.names.subs[key := done.state.names.subs[key]]
  {
  }

  lemma MintStarts(s: Registry, x: Ctx, call: Call, w: Option<W.Wallet>)
    requires (call.Rent? || call.RentPaid? || call.ClaimName?) && Apply(s, x, call).Some?
    ensures var done := Apply(s, x, call).value;
            && done.flight.Some? && !done.flight.value.RefundFlight?
            && KeyOfFlight(done.flight.value) == KeyOf(call.tla, call.name)
            && Started(s, done.state, KeyOf(call.tla, call.name), w, done.flight.value)
            && done.state.names.subs == s.names.subs[KeyOf(call.tla, call.name) := done.state.names.subs[KeyOf(call.tla, call.name)]]
  {
    var s1, kind, m, payout, reRent := MintCall(s, x, call);
    LeaseStarts(s1, x.now, kind, m, payout, reRent, w);
  }

  predicate StartsChain(call: Call) {
    call.RenewSub? || call.SetPayout? || call.TransferSub? || call.Recover? || call.Retract? || call.CancelRetraction? || call.Reclaim?
  }

  lemma TermStarts(s: Registry, x: Ctx, call: Call, w: Option<W.Wallet>)
    requires (call.Retract? || call.CancelRetraction? || call.Reclaim?) && Apply(s, x, call).Some?
    ensures var done, key := Apply(s, x, call).value, KeyOf(call.tla, call.name);
            && done.flight.Some? && !done.flight.value.RefundFlight?
            && KeyOfFlight(done.flight.value) == key && key in s.names.subs
            && Started(s, done.state, key, w, done.flight.value)
            && done.state.names.subs == s.names.subs[key := done.state.names.subs[key]]
  {
  }

  lemma ChainStarts(s: Registry, x: Ctx, call: Call, w: Option<W.Wallet>)
    requires StartsChain(call) && Apply(s, x, call).Some?
    ensures var done, key := Apply(s, x, call).value, KeyOf(call.tla, call.name);
            && done.flight.Some? && !done.flight.value.RefundFlight?
            && KeyOfFlight(done.flight.value) == key && key in s.names.subs
            && Started(s, done.state, key, w, done.flight.value)
            && done.state.names.subs == s.names.subs[key := done.state.names.subs[key]]
  {
    if call.Retract? || call.CancelRetraction? || call.Reclaim? {
      TermStarts(s, x, call, w);
    } else {
      AskingCalls(s, x, call);
    }
  }

  lemma TokenStarts(s: Registry, x: Ctx, call: Call, w: Option<W.Wallet>)
    requires (call.NftTransfer? || call.NftTransferCall?) && Apply(s, x, call).Some?
    ensures var done := Apply(s, x, call).value;
            && done.flight.Some? && !done.flight.value.RefundFlight?
            && KeyOfFlight(done.flight.value) == call.token && call.token in s.names.subs
            && Started(s, done.state, call.token, w, done.flight.value)
            && done.state.names.subs == s.names.subs
  {
    var tla := s.names.subs[call.token].tla;
    var cut := |call.token| - |tla| - 1;
    assert call.token == call.token[..cut] + "." + tla;
  }

  lemma QuietStarts(s: Registry, x: Ctx, call: Call)
    requires Apply(s, x, call).Some? && !StartsChain(call)
    requires !call.Rent? && !call.RentPaid? && !call.ClaimName? && !call.NftTransfer? && !call.NftTransferCall?
    ensures var done := Apply(s, x, call).value;
            done.state.names == s.names && (done.flight.Some? ==> done.flight.value.RefundFlight?)
  {
  }

  // ---------------------------------------------------------------- a wallet's own calls

  lemma {:induction false} OpsKeepTerms(w: W.Wallet, now: nat, actor: AccountId, ops: seq<W.WalletOp>)
    requires W.ExecuteOps(w, now, actor, ops).Some?
    ensures var w' := W.ExecuteOps(w, now, actor, ops).value;
            w'.owner == w.owner && w'.payout == w.payout && w'.leaseUntil == w.leaseUntil
  {
    if ops != [] {
      OpsKeepTerms(w, now, actor, ops[..|ops| - 1]);
    }
  }

  lemma LocalKeeps(w: W.Wallet, ctx: W.Ctx, call: W.Call)
    requires !Reserved(w, ctx, call)
    ensures var w' := W.After(w, ctx, call);
            w'.owner == w.owner && w'.payout == w.payout && w'.leaseUntil == w.leaseUntil
  {
    if call.ExecuteExtension? && W.ExecuteOps(w, ctx.now, ctx.caller, call.request.internal).Some? {
      OpsKeepTerms(w, ctx.now, ctx.caller, call.request.internal);
    }
  }

  // ---------------------------------------------------------------- one step

  /** All chains and entries keep in step when the entries away from `key` do. */
  lemma ElsewhereStaysInStep(w: World, w': World, key: Key, c: Chain)
    requires ChainInStep(w, c) && !On(c, key)
    requires OnlyAt(w.reg, w'.reg, key)
    requires forall k :: k != key ==> WalletAt(w', k) == WalletAt(w, k)
    ensures ChainInStep(w', c)
  {
  }

  lemma StillBusy(w: World, w': World, k: Key)
    requires w.chains <= w'.chains && Busy(w, k)
    ensures Busy(w', k)
  {
    var i :| 0 <= i < |w.chains| && On(w.chains[i], k);
    assert On(w'.chains[i], k);
  }

  lemma LaunchedOn(w: World, w': World, key: Key, f: Flight)
    requires Agreed(w) && !Busy(w, key) && !f.RefundFlight? && KeyOfFlight(f) == key
    requires w'.wallets == w.wallets && w'.chains == w.chains + [Chain(f, None)]
    requires Started(w.reg, w'.reg, key, WalletAt(w, key), f) && OnlyAt(w.reg, w'.reg, key)
    ensures Agreed(w')
  {
    var n := |w.chains|;
    assert w.chains <= w'.chains && On(w'.chains[n], key);
    forall i | 0 <= i < |w'.chains|
      ensures ChainInStep(w', w'.chains[i])
    {
      if i < n {
        assert ChainInStep(w, w.chains[i]) && !On(w.chains[i], key);
        ElsewhereStaysInStep(w, w', key, w.chains[i]);
      }
    }
    forall k | k in w'.reg.names.subs && !Busy(w', k)
      ensures Matches(w'.reg.names.subs[k], WalletAt(w', k))
    {
      assert k != key;
      if Busy(w, k) {
        StillBusy(w, w', k);
      }
    }
  }

  lemma RefundIsDisjoint(cs: seq<Chain>, c: Chain)
    requires Disjoint(cs) && c.flight.RefundFlight?
    ensures Disjoint(cs + [c])
  {
  }

  lemma LaunchedAside(w: World, w': World, f: Option<Flight>)
    requires Agreed(w) && w'.wallets == w.wallets && w'.reg.names == w.reg.names
    requires w'.chains == Extend(w.chains, f) && (f.Some? ==> f.value.RefundFlight?)
    ensures Agreed(w')
  {
    if f.Some? {
      RefundIsDisjoint(w.chains, Chain(f.value, None));
    }
    assert w.chains <= w'.chains;
    forall i | 0 <= i < |w'.chains|
      ensures ChainInStep(w', w'.chains[i])
    {
      if i < |w.chains| {
        assert w'.chains[i] == w.chains[i] && ChainInStep(w, w.chains[i]);
      }
    }
    forall k | k in w'.reg.names.subs && !Busy(w', k)
      ensures Matches(w'.reg.names.subs[k], WalletAt(w', k))
    {
      if Busy(w, k) {
        StillBusy(w, w', k);
      }
    }
  }

  lemma AskAgrees(w: World, x: Ctx, call: Call)
    requires Agreed(w) && Apply(w.reg, x, call).Some? && Apart(w, Ask(x, call))
    ensures Agreed(Next(w, Ask(x, call)))
  {
    var w', f := Next(w, Ask(x, call)), Apply(w.reg, x, call).value.flight;
    if call.Rent? || call.RentPaid? || call.ClaimName? {
      MintStarts(w.reg, x, call, WalletAt(w, KeyOf(call.tla, call.name)));
      LaunchedOn(w, w', KeyOf(call.tla, call.name), f.value);
    } else if StartsChain(call) {
      ChainStarts(w.reg, x, call, WalletAt(w, KeyOf(call.tla, call.name)));
      LaunchedOn(w, w', KeyOf(call.tla, call.name), f.value);
    } else if call.NftTransfer? || call.NftTransferCall? {
      TokenStarts(w.reg, x, call, WalletAt(w, call.token));
      LaunchedOn(w, w', call.token, f.value);
    } else {
      QuietStarts(w.reg, x, call);
      LaunchedAside(w, w', f);
    }
  }

  lemma RefundRelayed(w: World, w': World, i: nat, answer: Option<Outcome>)
    requires Agreed(w) && i < |w.chains| && w.chains[i].flight.RefundFlight?
    requires w'.reg == w.reg && w'.wallets == w.wallets && w'.chains == w.chains[i := w.chains[i].(answer := answer)]
    ensures Agreed(w')
  {
    SameBusy(w, w');
    forall j | 0 <= j < |w'.chains|
      ensures ChainInStep(w', w'.chains[j])
    {
      assert ChainInStep(w, w.chains[j]);
    }
  }

  lemma LegRelayed(w: World, w': World, i: nat, key: Key, leg: Leg)
    requires Agreed(w) && i < |w.chains| && On(w.chains[i], key) && key in w.reg.names.subs
    requires w'.reg == w.reg && w'.wallets == WithWallet(w.wallets, key, leg.wallet)
    requires w'.chains == w.chains[i := Chain(w.chains[i].flight, Some(leg.outcome))]
    requires InStep(w.reg.names.subs[key], leg.wallet, w'.chains[i])
    ensures Agreed(w')
  {
    SameBusy(w, w');
    assert WalletAt(w', key) == leg.wallet;
    forall j | 0 <= j < |w'.chains|
      ensures ChainInStep(w', w'.chains[j])
    {
      if j != i {
        assert ChainInStep(w, w.chains[j]) && !On(w.chains[j], key);
        ElsewhereStaysInStep(w, w', key, w.chains[j]);
      }
    }
  }

  lemma RelayAgrees(w: World, now: nat, i: nat, reply: Reply)
    requires Agreed(w) && i < |w.chains| && w.chains[i].answer.None?
    ensures Agreed(Next(w, Relay(now, i, reply)))
  {
    var w', f := Next(w, Relay(now, i, reply)), w.chains[i].flight;
    assert ChainInStep(w, w.chains[i]);
    if f.RefundFlight? {
      RefundRelayed(w, w', i, Some(reply.outcome));
    } else {
      var key := KeyOfFlight(f);
      LegInStep(w.extension, w.reg.names.subs[key], WalletAt(w, key), f, now, reply);
      LegRelayed(w, w', i, key, RunLeg(w.extension, WalletAt(w, key), f, now, reply));
    }
  }

  lemma SameBusy(w: World, w': World)
    requires |w.chains| == |w'.chains| && (forall i :: 0 <= i < |w.chains| ==> w.chains[i].flight == w'.chains[i].flight)
    ensures forall k :: Busy(w', k) <==> Busy(w, k)
  {
    forall k
      ensures Busy(w', k) <==> Busy(w, k)
    {
      SameFlightsBusy(w, w', k);
      SameFlightsBusy(w', w, k);
    }
  }

  lemma SameFlightsBusy(w: World, w': World, k: Key)
    requires |w.chains| == |w'.chains| && (forall i :: 0 <= i < |w.chains| ==> w.chains[i].flight == w'.chains[i].flight)
    ensures Busy(w, k) ==> Busy(w', k)
  {
    if Busy(w, k) {
      var i :| 0 <= i < |w.chains| && On(w.chains[i], k);
      assert On(w'.chains[i], k);
    }
  }

  lemma LocalAgrees(w: World, key: Key, ctx: W.Ctx, call: W.Call)
    requires Agreed(w) && key in w.wallets && !Reserved(w.wallets[key], ctx, call)
    ensures Agreed(Next(w, Local(key, ctx, call)))
  {
    LocalKeeps(w.wallets[key], ctx, call);
    TermsKept(w, Next(w, Local(key, ctx, call)), key, W.After(w.wallets[key], ctx, call));
  }

  lemma TermsKept(w: World, w': World, key: Key, after: W.Wallet)
    requires Agreed(w) && key in w.wallets && w' == w.(wallets := w.wallets[key := after])
    requires var before := w.wallets[key]; after.owner == before.owner && after.payout == before.payout && after.leaseUntil == before.leaseUntil
    ensures Agreed(w')
  {
    SameBusy(w, w');
    forall i | 0 <= i < |w'.chains|
      ensures ChainInStep(w', w'.chains[i])
    {
      assert ChainInStep(w, w.chains[i]);
    }
  }

  // ---------------------------------------------------------------- settling

  lemma RestBusy(w: World, i: nat, k: Key)
    requires i < |w.chains| && Busy(w, k) && !On(w.chains[i], k)
    ensures exists j :: 0 <= j < |Without(w.chains, i)| && On(Without(w.chains, i)[j], k)
  {
    var j :| 0 <= j < |w.chains| && On(w.chains[j], k);
    assert Without(w.chains, i)[if j < i then j else j - 1] == w.chains[j];
  }

  lemma RestIsDisjoint(cs: seq<Chain>, i: nat)
    requires Disjoint(cs) && i < |cs|
    ensures Disjoint(Without(cs, i))
    ensures !cs[i].flight.RefundFlight? ==> forall j :: 0 <= j < |Without(cs, i)| ==> !On(Without(cs, i)[j], KeyOfFlight(cs[i].flight))
  {
    var rest := Without(cs, i);
    assert forall j :: 0 <= j < |rest| ==> rest[j] == cs[if j < i then j else j + 1];
  }

  lemma ExtendedIsDisjoint(cs: seq<Chain>, f: Flight)
    requires Disjoint(cs) && !f.RefundFlight? && forall j :: 0 <= j < |cs| ==> !On(cs[j], KeyOfFlight(f))
    ensures Disjoint(cs + [Chain(f, None)])
  {
  }

  lemma RestInStep(w: World, w': World, i: nat, key: Key)
    requires Agreed(w) && i < |w.chains| && On(w.chains[i], key)
    requires w'.wallets == w.wallets && OnlyAt(w.reg, w'.reg, key)
    ensures forall j :: 0 <= j < |Without(w.chains, i)| ==> ChainInStep(w', Without(w.chains, i)[j])
  {
    var rest := Without(w.chains, i);
    RestIsDisjoint(w.chains, i);
    forall j | 0 <= j < |rest|
      ensures ChainInStep(w', rest[j])
    {
      assert rest[j] == w.chains[if j < i then j else j + 1];
      assert ChainInStep(w, rest[j]) && !On(rest[j], key);
      ElsewhereStaysInStep(w, w', key, rest[j]);
    }
  }

  /** Settling the chain on `key`: what remains, and what it turns into, is in step. */
  lemma SettledOn(w: World, w': World, i: nat, key: Key, g: Option<Flight>)
    requires Agreed(w) && i < |w.chains| && On(w.chains[i], key)
    requires w'.wallets == w.wallets && w'.chains == Extend(Without(w.chains, i), g)
    requires OnlyAt(w.reg, w'.reg, key) && Landed(w'.reg, key, WalletAt(w, key), g)
    ensures Agreed(w')
  {
    var rest := Without(w.chains, i);
    RestIsDisjoint(w.chains, i);
    RestInStep(w, w', i, key);
    if g.Some? {
      ExtendedIsDisjoint(rest, g.value);
      assert w'.chains[|rest|] == Chain(g.value, None) && On(w'.chains[|rest|], key);
    }
    forall j | 0 <= j < |w'.chains|
      ensures ChainInStep(w', w'.chains[j])
    {
      if j < |rest| {
        assert w'.chains[j] == rest[j];
      }
    }
    forall k | k in w'.reg.names.subs && !Busy(w', k)
      ensures Matches(w'.reg.names.subs[k], WalletAt(w', k))
    {
      if k != key && Busy(w, k) {
        RestStaysBusy(w, w', i, g, k);
      }
    }
  }

  lemma RestStaysBusy(w: World, w': World, i: nat, g: Option<Flight>, k: Key)
    requires i < |w.chains| && Busy(w, k) && !On(w.chains[i], k) && w'.chains == Extend(Without(w.chains, i), g)
    ensures Busy(w', k)
  {
    RestBusy(w, i, k);
    var j :| 0 <= j < |Without(w.chains, i)| && On(Without(w.chains, i)[j], k);
    assert On(w'.chains[j], k);
  }

  lemma RefundSettled(w: World, w': World, i: nat)
    requires Agreed(w) && i < |w.chains| && w.chains[i].flight.RefundFlight?
    requires w'.wallets == w.wallets && w'.chains == Without(w.chains, i) && w'.reg.names == w.reg.names
    ensures Agreed(w')
  {
    var rest := Without(w.chains, i);
    RestIsDisjoint(w.chains, i);
    forall j | 0 <= j < |rest|
      ensures ChainInStep(w', rest[j])
    {
      assert rest[j] == w.chains[if j < i then j else j + 1];
      assert ChainInStep(w, rest[j]);
    }
    forall k | k in w'.reg.names.subs && !Busy(w', k)
      ensures Matches(w'.reg.names.subs[k], WalletAt(w', k))
    {
      if Busy(w, k) {
        RestBusy(w, i, k);
      }
    }
  }

  lemma AnswerAgrees(w: World, now: nat, i: nat)
    requires Agreed(w) && i < |w.chains| && w.chains[i].answer.Some?
    ensures Agreed(Next(w, Answer(now, i)))
  {
    var w', f, outcome := Next(w, Answer(now, i)), w.chains[i].flight, w.chains[i].answer.value;
    var done := Settle(w.reg, now, f, outcome);
    if f.RefundFlight? {
      RefundLaunchesNothing(w.reg, now, f, outcome);
      RefundSettled(w, w', i);
    } else {
      var key := KeyOfFlight(f);
      assert ChainInStep(w, w.chains[i]) && On(w.chains[i], key);
      Lands(w.reg, now, f, WalletAt(w, key), outcome);
      if done.Some? {
        SettleFrame(w.reg, now, f, outcome);
        SettledOn(w, w', i, key, done.value.flight);
      } else {
        SettledOn(w, w', i, key, None);
      }
    }
  }

  // ---------------------------------------------------------------- runs

  ghost predicate Run(ws: seq<World>, events: seq<Event>) {
    && |ws| == |events| + 1 && Deployed(ws[0].reg) && ws[0].chains == []
    && (forall i {:trigger Next(ws[i], events[i])} :: 0 <= i < |events| ==> ws[i + 1] == Next(ws[i], events[i]))
    && (forall i {:trigger Apart(ws[i], events[i])} :: 0 <= i < |events| ==> Apart(ws[i], events[i]))
  }

  lemma {:induction false} RunsAgree(ws: seq<World>, events: seq<Event>, i: nat)
    requires Run(ws, events) && i <= |events|
    ensures Agreed(ws[i])
  {
    if i > 0 {
      RunsAgree(ws, events, i - 1);
      var w, e := ws[i - 1], events[i - 1];
      assert ws[i - 1 + 1] == Next(w, e) && Apart(w, e);
      match e
      case Ask(x, call) =>
        if Apply(w.reg, x, call).Some? {
          AskAgrees(w, x, call);
        }
      case Relay(now, k, reply) =>
        if k < |w.chains| && w.chains[k].answer.None? {
          RelayAgrees(w, now, k, reply);
        }
      case Answer(now, k) =>
        if k < |w.chains| && w.chains[k].answer.Some? {
          AnswerAgrees(w, now, k);
        }
      case Local(key, ctx, call) =>
        if key in w.wallets && !Reserved(w.wallets[key], ctx, call) {
          LocalAgrees(w, key, ctx, call);
        }
    }
  }

  /** In every run of non-overlapping chains, each settled name has a wallet with the owner, payout and lease its entry records. */
  lemma SettledNamesAgree(ws: seq<World>, events: seq<Event>, i: nat, key: Key)
    requires Run(ws, events) && i <= |events|
    requires key in ws[i].reg.names.subs && !Busy(ws[i], key)
    ensures key in ws[i].wallets
    ensures ws[i].wallets[key].owner == ws[i].reg.names.subs[key].owner
    ensures ws[i].wallets[key].payout == ws[i].reg.names.subs[key].payout
    ensures ws[i].wallets[key].leaseUntil <= ws[i].reg.names.subs[key].expiresAt
    ensures ws[i].reg.names.subs[key].retractionAt.None? ==> ws[i].wallets[key].leaseUntil == ws[i].reg.names.subs[key].expiresAt
  {
    RunsAgree(ws, events, i);
  }
}
