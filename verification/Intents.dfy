/**
 What a call on a name promises is what its chain delivers: every settled chain, in every run of
 non-overlapping chains, answers one earlier call and leaves exactly the entry that call was for.
 */
module Intents {
  import opened Common
  import opened RegistryTypes
  import opened NameTable
  import opened RegistryModel
  import opened IndexRuns
  import opened Agreement
  import W = WalletModel

  /** Calls that start a chain on one name. */
  predicate OnName(call: Call) {
    || call.Rent? || call.RentPaid? || call.ClaimName? || call.RenewSub? || call.SetPayout? || call.Recover?
    || call.Retract? || call.CancelRetraction? || call.Reclaim? || Hands(call)
  }

  /** Calls by which an owner hands a name on. */
  predicate Hands(call: Call) {
    call.TransferSub? || call.NftTransfer? || call.NftTransferCall?
  }

  function NameKey(call: Call): Key
    requires OnName(call)
  {
    if call.NftTransfer? || call.NftTransferCall? then call.token else KeyOf(call.tla, call.name)
  }

  // ---------------------------------------------------------------- what a call is for

  /** The entry of a new lease: one term from now, no retraction. */
  function Leased(s: Registry, now: nat, tla: AccountId, owner: AccountId, payout: AccountId): Option<Sub> {
    Some(Sub(owner, tla, payout, now, SatAdd(now, s.cfg.leaseTerm), None))
  }

  /** The entry a call on a name is for, read off the call and the entry it found; none when the name is to go. */
  function Promised(s: Registry, x: Ctx, call: Call): Option<Sub>
    requires OnName(call)
  {
    match call
    case Rent(tla, _, owner) =>
      var holder := if owner.Some? then owner.value else x.caller;
      Leased(s, x.now, tla, holder, holder)
    case RentPaid(tla, _, holder, payout, _) => Leased(s, x.now, tla, holder, payout)
    case ClaimName(tla, _) => Leased(s, x.now, tla, x.caller, x.caller)
    case _ => if NameKey(call) in s.names.subs then Changed(s, x, call, s.names.subs[NameKey(call)]) else None
  }

  function Changed(s: Registry, x: Ctx, call: Call, sub: Sub): Option<Sub> {
    match call
    case RenewSub(_, _) => Some(sub.(expiresAt := SatAdd(Max(x.now, sub.expiresAt), s.cfg.leaseTerm)))
    case SetPayout(_, _, payout) => Some(sub.(payout := payout))
    case Recover(_, _, to, _) => Some(sub.(owner := to, payout := to))
    case Retract(_, _) => Some(sub.(retractionAt := Some(x.now)))
    case CancelRetraction(_, _) => Some(sub.(retractionAt := None))
    case Reclaim(_, _) => if GivesNotice(sub, x.now) then Some(sub.(retractionAt := Some(x.now))) else None
    case TransferSub(_, _, to) => Some(Handed(s, sub, to))
    case NftTransfer(_, to, _) => Some(Handed(s, sub, to))
    case NftTransferCall(_, to, _) => Some(Handed(s, sub, to))
    case _ => None
  }

  /** A new holder is paid from now on, except that a venue leaves the payout as it was. */
  function Handed(s: Registry, sub: Sub, to: AccountId): Sub {
    sub.(owner := to, payout := if to in s.cfg.venues then sub.payout else to)
  }

  /** A reclaim of a term still running, without a retraction on record, only gives notice. */
  predicate GivesNotice(sub: Sub, now: nat) {
    now < sub.expiresAt && sub.retractionAt.None?
  }

  /** The entry a failed chain leaves: a failed mint none, a failed notice its date, all others what was there. */
  function Denied(s: Registry, x: Ctx, call: Call): Option<Sub>
    requires OnName(call)
  {
    if call.Rent? || call.RentPaid? || call.ClaimName? || NameKey(call) !in s.names.subs then None
    else
      var sub := s.names.subs[NameKey(call)];
      if call.Reclaim? && GivesNotice(sub, x.now) then Some(sub.(retractionAt := Some(x.now))) else Some(sub)
  }

  // ---------------------------------------------------------------- what a chain will do

  /** The leg that decides: not a balance gate, not a receiver's answer. */
  predicate Decisive(f: Flight) {
    !f.ReRentGate? && !f.MoveGate? && !f.ReclaimGate? && !f.ReceiverFlight? && !f.RefundFlight?
  }

  predicate HandedBack(f: Flight) {
    f.ReceiverFlight? || f.ReturnFlight?
  }

  function OnSuccess(sub: Sub, f: Flight): Option<Sub> {
    match f
    case ReclaimGate(_, _) => None
    case ReclaimFlight(_, _) => None
    case MoveGate(style, tla, name, from, to, cause) => Some(Target(sub, MoveFlight(style, tla, name, from, to, cause)))
    case _ => Some(Target(sub, f))
  }

  function OnFailure(sub: Sub, f: Flight): Option<Sub> {
    if f.MintFlight? || f.ReRentGate? || f.ReRentFlight? then None else Some(Origin(sub, f))
  }

  /** A chain still on its way, for a call that is to leave `good` or else `bad`. */
  predicate ServesAs(x: Ctx, call: Call, good: Option<Sub>, bad: Option<Sub>, sub: Sub, f: Flight) {
    if f.ReceiverFlight? then call.NftTransferCall? && f.from == x.caller && f.to == call.to
    else if f.ReturnFlight? then call.NftTransferCall? && f.to == x.caller && f.from == call.to
    else
      && OnSuccess(sub, f) == good && OnFailure(sub, f) == bad
      && (f.MoveGate? || f.MoveFlight? ==> Hands(call) && f.from == x.caller && f.to == call.to && (f.style.NftCall? <==> call.NftTransferCall?))
      && (f.RecoverFlight? ==> call.Recover?)
      && (f.PayoutFlight? ==> call.SetPayout? && call.payout == f.payout)
  }

  predicate Serves(s: Registry, x: Ctx, call: Call, sub: Sub, f: Flight)
    requires OnName(call)
  {
    ServesAs(x, call, Promised(s, x, call), Denied(s, x, call), sub, f)
  }

  // ---------------------------------------------------------------- starting

  ghost predicate StartsFor(s: Registry, x: Ctx, call: Call) {
    OnName(call) && Apply(s, x, call).Some? &&
    var done := Apply(s, x, call).value;
    && done.flight.Some? && !done.flight.value.RefundFlight? && KeyOfFlight(done.flight.value) == NameKey(call)
    && NameKey(call) in done.state.names.subs
    && !HandedBack(done.flight.value)
    && Serves(s, x, call, done.state.names.subs[NameKey(call)], done.flight.value)
  }

  lemma LeaseFor(s: Registry, now: nat, kind: MintKind, m: Settlement, payout: AccountId, reRent: bool)
    ensures var done, key := StartMint(s, now, kind, m, payout, reRent), KeyOf(m.tla, m.name);
            && done.flight.Some? && !done.flight.value.RefundFlight? && KeyOfFlight(done.flight.value) == key
            && key in done.state.names.subs && !HandedBack(done.flight.value)
            && !done.flight.value.MoveGate? && !done.flight.value.MoveFlight? && !done.flight.value.RecoverFlight? && !done.flight.value.PayoutFlight?
            && OnSuccess(done.state.names.subs[key], done.flight.value) == Leased(s, now, m.tla, m.owner, payout)
            && OnFailure(done.state.names.subs[key], done.flight.value) == None
  {
  }

  lemma RentFor(s: Registry, x: Ctx, call: Call)
    requires call.Rent? && Apply(s, x, call).Some?
    ensures StartsFor(s, x, call)
  {
    var holder := if call.owner.Some? then call.owner.value else x.caller;
    var rent := Price(s, NameRent(s, call.tla, call.name), x.now);
    LeaseFor(s, x.now, Rental, Settlement(call.tla, call.name, holder, x.caller, rent.value, x.deposit, None), holder, KeyOf(call.tla, call.name) in s.parked);
  }

  lemma RentPaidFor(s: Registry, x: Ctx, call: Call)
    requires call.RentPaid? && Apply(s, x, call).Some?
    ensures StartsFor(s, x, call)
  {
    LeaseFor(s.(ord := Reserve(s.ord, call.orderId, KeyOf(call.tla, call.name), call.tla, x.caller, x.now)), x.now, PaidRental,
             Settlement(call.tla, call.name, call.holder, x.caller, 0, x.deposit, Some(call.orderId)), call.payout, KeyOf(call.tla, call.name) in s.parked);
  }

  lemma ClaimFor(s: Registry, x: Ctx, call: Call)
    requires call.ClaimName? && Apply(s, x, call).Some?
    ensures StartsFor(s, x, call)
  {
    LeaseFor(Marked(s, call.tla, call.name, x.caller), x.now, BusinessClaim,
             Settlement(call.tla, call.name, x.caller, x.caller, 0, x.deposit, None), x.caller, false);
  }

  lemma MoveFor(s: Registry, x: Ctx, style: Style, tla: AccountId, name: string, to: AccountId)
    requires TransferBy(s, x, style, tla, name, to).Some?
    ensures var done, key := TransferBy(s, x, style, tla, name, to).value, KeyOf(tla, name);
            && key in s.names.subs && x.caller == s.names.subs[key].owner && done.state == s
            && done.flight.Some? && !done.flight.value.RefundFlight? && KeyOfFlight(done.flight.value) == key
            && (done.flight.value.MoveGate? || done.flight.value.MoveFlight?)
            && done.flight.value.style == style && done.flight.value.from == x.caller && done.flight.value.to == to
            && OnSuccess(s.names.subs[key], done.flight.value) == Some(Handed(s, s.names.subs[key], to))
            && OnFailure(s.names.subs[key], done.flight.value) == Some(s.names.subs[key])
  {
  }

  lemma SplitToken(s: Registry, token: Key) returns (tla: AccountId, name: string)
    requires token in s.names.subs && |token| > |s.names.subs[token].tla|
    requires token[|token| - |s.names.subs[token].tla| - 1..] == "." + s.names.subs[token].tla
    ensures tla == s.names.subs[token].tla && name == token[..|token| - |tla| - 1] && KeyOf(tla, name) == token
  {
    tla := s.names.subs[token].tla;
    name := token[..|token| - |tla| - 1];
    assert token == name + ("." + tla);
  }

  lemma TokenMove(s: Registry, x: Ctx, style: Style, token: Key, to: AccountId, approval: Option<nat>)
    requires NftTransferBy(s, x, style, token, to, approval).Some?
    ensures var done := NftTransferBy(s, x, style, token, to, approval).value;
            && token in s.names.subs && x.caller == s.names.subs[token].owner && done.state == s
            && done.flight.Some? && !done.flight.value.RefundFlight? && KeyOfFlight(done.flight.value) == token
            && (done.flight.value.MoveGate? || done.flight.value.MoveFlight?)
            && done.flight.value.style == style && done.flight.value.from == x.caller && done.flight.value.to == to
            && OnSuccess(s.names.subs[token], done.flight.value) == Some(Handed(s, s.names.subs[token], to))
            && OnFailure(s.names.subs[token], done.flight.value) == Some(s.names.subs[token])
  {
    var tla, name := SplitToken(s, token);
    MoveFor(s, x, style, tla, name, to);
  }

  lemma TokenFor(s: Registry, x: Ctx, call: Call)
    requires (call.NftTransfer? || call.NftTransferCall?) && Apply(s, x, call).Some?
    ensures StartsFor(s, x, call)
    ensures x.caller == s.names.subs[NameKey(call)].owner
  {
    TokenMove(s, x, if call.NftTransfer? then Nft else NftCall, call.token, call.to, call.approval);
  }

  lemma HandFor(s: Registry, x: Ctx, call: Call)
    requires Hands(call) && Apply(s, x, call).Some?
    ensures StartsFor(s, x, call)
    ensures x.caller == s.names.subs[NameKey(call)].owner
  {
    if call.TransferSub? {
      MoveFor(s, x, Plain, call.tla, call.name, call.to);
    } else {
      TokenFor(s, x, call);
    }
  }

  lemma TermFor(s: Registry, x: Ctx, call: Call)
    requires (call.RenewSub? || call.SetPayout? || call.Recover?) && Apply(s, x, call).Some?
    ensures StartsFor(s, x, call)
  {
  }

  lemma NoticeFor(s: Registry, x: Ctx, call: Call)
    requires (call.Retract? || call.CancelRetraction?) && Apply(s, x, call).Some?
    ensures StartsFor(s, x, call)
  {
  }

  lemma ReclaimFor(s: Registry, x: Ctx, call: Call)
    requires call.Reclaim? && Apply(s, x, call).Some?
    ensures StartsFor(s, x, call)
  {
  }

  /** An accepted call on a name starts a chain that will leave what the call promises, or what it found. */
  lemma CallsStartTheirChain(s: Registry, x: Ctx, call: Call)
    requires OnName(call) && Apply(s, x, call).Some?
    ensures StartsFor(s, x, call)
  {
    if Hands(call) {
      HandFor(s, x, call);
    } else if call.Rent? {
      RentFor(s, x, call);
    } else if call.RentPaid? {
      RentPaidFor(s, x, call);
    } else if call.ClaimName? {
      ClaimFor(s, x, call);
    } else if call.RenewSub? || call.SetPayout? || call.Recover? {
      TermFor(s, x, call);
    } else if call.Reclaim? {
      ReclaimFor(s, x, call);
    } else {
      NoticeFor(s, x, call);
    }
  }

  // ---------------------------------------------------------------- settling

  function EntryAt(s: Registry, key: Key): Option<Sub> {
    if key in s.names.subs then Some(s.names.subs[key]) else None
  }

  /** The state a settled chain leaves; a callback that panics leaves the state as it was. */
  function AfterSettle(s: Registry, now: nat, f: Flight, outcome: Outcome): Registry {
    var done := Settle(s, now, f, outcome);
    if done.Some? then done.value.state else s
  }

  lemma MintDelivers(s: Registry, now: nat, f: Flight, outcome: Outcome)
    requires (f.MintFlight? || f.ReRentFlight?) && KeyOfFlight(f) in s.names.subs
    ensures EntryAt(AfterSettle(s, now, f, outcome), KeyOfFlight(f))
            == if outcome.Succeeded? then OnSuccess(s.names.subs[KeyOfFlight(f)], f) else OnFailure(s.names.subs[KeyOfFlight(f)], f)
  {
    if Settle(s, now, f, outcome).Some? {
      MintNames(s, now, f, outcome);
    }
  }

  lemma MoveDelivers(s: Registry, now: nat, f: Flight, outcome: Outcome)
    requires (f.MoveFlight? || f.ReturnFlight? || f.RecoverFlight?) && KeyOfFlight(f) in s.names.subs
    requires Expected(s.names.subs[KeyOfFlight(f)], f)
    ensures EntryAt(AfterSettle(s, now, f, outcome), KeyOfFlight(f))
            == if outcome.Succeeded? then OnSuccess(s.names.subs[KeyOfFlight(f)], f) else OnFailure(s.names.subs[KeyOfFlight(f)], f)
  {
  }

  lemma TermDelivers(s: Registry, now: nat, f: Flight, outcome: Outcome)
    requires f.RenewFlight? || f.PayoutFlight? || f.RetractFlight? || f.NoticeFlight? || f.RestoreFlight? || f.ReclaimFlight?
    requires KeyOfFlight(f) in s.names.subs && Expected(s.names.subs[KeyOfFlight(f)], f)
    ensures EntryAt(AfterSettle(s, now, f, outcome), KeyOfFlight(f))
            == if outcome.Succeeded? then OnSuccess(s.names.subs[KeyOfFlight(f)], f) else OnFailure(s.names.subs[KeyOfFlight(f)], f)
  {
  }

  lemma Delivers(s: Registry, now: nat, f: Flight, outcome: Outcome)
    requires Decisive(f) && KeyOfFlight(f) in s.names.subs && Expected(s.names.subs[KeyOfFlight(f)], f)
    ensures EntryAt(AfterSettle(s, now, f, outcome), KeyOfFlight(f))
            == if outcome.Succeeded? then OnSuccess(s.names.subs[KeyOfFlight(f)], f) else OnFailure(s.names.subs[KeyOfFlight(f)], f)
  {
    if f.MintFlight? || f.ReRentFlight? {
      MintDelivers(s, now, f, outcome);
    } else if f.MoveFlight? || f.ReturnFlight? || f.RecoverFlight? {
      MoveDelivers(s, now, f, outcome);
    } else {
      TermDelivers(s, now, f, outcome);
    }
  }

  /** A chain that goes on still serves its call. */
  lemma GoesOn(s0: Registry, x: Ctx, call: Call, s: Registry, now: nat, f: Flight, outcome: Outcome)
    requires OnName(call) && !f.RefundFlight? && KeyOfFlight(f) in s.names.subs && Serves(s0, x, call, s.names.subs[KeyOfFlight(f)], f)
    requires Settle(s, now, f, outcome).Some? && Settle(s, now, f, outcome).value.flight.Some?
    ensures var done := Settle(s, now, f, outcome).value;
            && !done.flight.value.RefundFlight? && KeyOfFlight(done.flight.value) == KeyOfFlight(f) && KeyOfFlight(f) in done.state.names.subs
            && Serves(s0, x, call, done.state.names.subs[KeyOfFlight(f)], done.flight.value)
  {
    SettleGoesOn(s, now, f, outcome);
    Onwards(s, now, f, outcome);
    var done, key := Settle(s, now, f, outcome).value, KeyOfFlight(f);
    if f.MoveFlight? {
      MoveEffect(s, now, f, outcome);
    }
    ServesOnward(x, call, Promised(s0, x, call), Denied(s0, x, call), s.names.subs[key], f, done.state.names.subs[key], done.flight.value);
  }

  /** `g` is what the chain `f` turns into. */
  predicate Becomes(f: Flight, g: Flight) {
    match f
    case ReRentGate(m, payout, until) => g == ReRentFlight(m, payout, until)
    case MoveGate(style, tla, name, from, to, cause) => g == MoveFlight(style, tla, name, from, to, cause)
    case ReclaimGate(tla, name) => g == ReclaimFlight(tla, name)
    case MoveFlight(style, tla, name, from, to, cause) => style.NftCall? && g == ReceiverFlight(tla, name, from, to)
    case ReceiverFlight(tla, name, from, to) => g == ReturnFlight(tla, name, to, from)
    case _ => false
  }

  lemma ServesOnward(x: Ctx, call: Call, good: Option<Sub>, bad: Option<Sub>, sub: Sub, f: Flight, sub': Sub, g: Flight)
    requires ServesAs(x, call, good, bad, sub, f) && Becomes(f, g) && (f.MoveFlight? || sub' == sub)
    ensures ServesAs(x, call, good, bad, sub', g)
  {
  }

  lemma Onwards(s: Registry, now: nat, f: Flight, outcome: Outcome)
    requires Settle(s, now, f, outcome).Some? && Settle(s, now, f, outcome).value.flight.Some?
    ensures var s', g := Settle(s, now, f, outcome).value.state, Settle(s, now, f, outcome).value.flight.value;
            Becomes(f, g) && (f.MoveFlight? || s' == s)
  {
  }

  // ---------------------------------------------------------------- where a chain comes from

  lemma AskTouches(s: Registry, x: Ctx, call: Call)
    requires Apply(s, x, call).Some?
    ensures var done := Apply(s, x, call).value;
            if OnName(call) then
              && done.flight.Some? && !done.flight.value.RefundFlight? && KeyOfFlight(done.flight.value) == NameKey(call)
              && OnlyAt(s, done.state, NameKey(call))
            else done.state.names == s.names && (done.flight.Some? ==> done.flight.value.RefundFlight?)
  {
    if OnName(call) {
      NameTouched(s, x, call);
    } else {
      QuietStarts(s, x, call);
    }
  }

  lemma NameTouched(s: Registry, x: Ctx, call: Call)
    requires OnName(call) && Apply(s, x, call).Some?
    ensures OnlyAt(s, Apply(s, x, call).value.state, NameKey(call))
    ensures var f := Apply(s, x, call).value.flight; f.Some? && !f.value.RefundFlight? && KeyOfFlight(f.value) == NameKey(call)
  {
    CallsStartTheirChain(s, x, call);
    if call.Rent? || call.RentPaid? || call.ClaimName? {
      MintStarts(s, x, call, None);
    } else if call.Retract? || call.Reclaim? {
      NoticeEffect(s, x, call);
    } else {
      QuietCalls(s, x, call);
    }
  }

  /** How a chain in flight after an event relates to those before it. */
  datatype Passage = New | Same(before: nat) | Onward(settled: nat)

  ghost predicate CameBy(w: World, e: Event, c: nat, how: Passage)
    requires c < |Agreement.Next(w, e).chains| && !Agreement.Next(w, e).chains[c].flight.RefundFlight?
  {
    var f := Agreement.Next(w, e).chains[c].flight;
    match how
    case New => e.Ask? && OnName(e.call) && Apply(w.reg, e.x, e.call).Some? && Apply(w.reg, e.x, e.call).value.flight == Some(f)
    case Same(b) =>
      && b < |w.chains| && w.chains[b].flight == f
      && EntryAt(Agreement.Next(w, e).reg, KeyOfFlight(f)) == EntryAt(w.reg, KeyOfFlight(f))
    case Onward(b) =>
      && e.Answer? && e.chain == b < |w.chains| && w.chains[b].answer.Some? && !w.chains[b].flight.RefundFlight?
      && Settle(w.reg, e.at, w.chains[b].flight, w.chains[b].answer.value).Some?
      && Settle(w.reg, e.at, w.chains[b].flight, w.chains[b].answer.value).value.flight == Some(f)
  }

  lemma AskBefore(w: World, e: Event, c: nat) returns (how: Passage)
    requires Agreed(w) && e.Ask? && Apart(w, e) && c < |Agreement.Next(w, e).chains| && !Agreement.Next(w, e).chains[c].flight.RefundFlight?
    ensures CameBy(w, e, c, how)
  {
    if Apply(w.reg, e.x, e.call).None? {
      return Same(c);
    }
    AskTouches(w.reg, e.x, e.call);
    if c < |w.chains| {
      how := Same(c);
      assert On(w.chains[c], KeyOfFlight(w.chains[c].flight));
    } else {
      how := New;
    }
  }

  lemma AnswerReg(w: World, e: Event)
    requires e.Answer? && e.chain < |w.chains| && w.chains[e.chain].answer.Some?
    ensures Agreement.Next(w, e).reg == AfterSettle(w.reg, e.at, w.chains[e.chain].flight, w.chains[e.chain].answer.value)
    ensures Agreement.Next(w, e).wallets == w.wallets
  {
  }

  /** The chains after a settlement: the others as they were, then what the settled one turned into. */
  lemma AnswerChains(w: World, e: Event, c: nat)
    requires e.Answer? && e.chain < |w.chains| && w.chains[e.chain].answer.Some? && c < |Agreement.Next(w, e).chains|
    ensures c < |w.chains| - 1 ==> Agreement.Next(w, e).chains[c] == w.chains[if c < e.chain then c else c + 1]
    ensures c >= |w.chains| - 1 ==>
              var done := Settle(w.reg, e.at, w.chains[e.chain].flight, w.chains[e.chain].answer.value);
              done.Some? && done.value.flight == Some(Agreement.Next(w, e).chains[c].flight)
  {
    var rest := Without(w.chains, e.chain);
    assert |rest| == |w.chains| - 1;
    assert c < |rest| ==> rest[c] == w.chains[if c < e.chain then c else c + 1];
  }

  lemma AnswerBefore(w: World, e: Event, c: nat) returns (how: Passage)
    requires Agreed(w) && e.Answer? && c < |Agreement.Next(w, e).chains| && !Agreement.Next(w, e).chains[c].flight.RefundFlight?
    ensures CameBy(w, e, c, how)
  {
    if e.chain >= |w.chains| || w.chains[e.chain].answer.None? {
      return Same(c);
    }
    if c < |w.chains| - 1 {
      AnswerChains(w, e, c);
      var b := if c < e.chain then c else c + 1;
      AnswerElsewhere(w, e, b);
      how := Same(b);
    } else {
      AnswerOnward(w, e, c);
      how := Onward(e.chain);
    }
  }

  lemma AnswerOnward(w: World, e: Event, c: nat)
    requires e.Answer? && e.chain < |w.chains| && w.chains[e.chain].answer.Some?
    requires |w.chains| - 1 <= c < |Agreement.Next(w, e).chains| && !Agreement.Next(w, e).chains[c].flight.RefundFlight?
    ensures CameBy(w, e, c, Onward(e.chain))
  {
    AnswerChains(w, e, c);
    if w.chains[e.chain].flight.RefundFlight? {
      RefundLaunchesNothing(w.reg, e.at, w.chains[e.chain].flight, w.chains[e.chain].answer.value);
    }
  }

  /** Settling one chain leaves the entries of the others alone. */
  lemma AnswerElsewhere(w: World, e: Event, b: nat)
    requires Agreed(w) && e.Answer? && e.chain < |w.chains| && w.chains[e.chain].answer.Some? && b < |w.chains| && b != e.chain
    requires !w.chains[b].flight.RefundFlight?
    ensures EntryAt(Agreement.Next(w, e).reg, KeyOfFlight(w.chains[b].flight)) == EntryAt(w.reg, KeyOfFlight(w.chains[b].flight))
  {
    var f, outcome := w.chains[e.chain].flight, w.chains[e.chain].answer.value;
    if Settle(w.reg, e.at, f, outcome).Some? {
      if f.RefundFlight? {
        RefundLaunchesNothing(w.reg, e.at, f, outcome);
      } else {
        SettleFrame(w.reg, e.at, f, outcome);
        assert KeyOfFlight(f) != KeyOfFlight(w.chains[b].flight);
      }
    }
  }

  lemma ChainBefore(w: World, e: Event, c: nat) returns (how: Passage)
    requires Agreed(w) && Apart(w, e) && c < |Agreement.Next(w, e).chains| && !Agreement.Next(w, e).chains[c].flight.RefundFlight?
    ensures CameBy(w, e, c, how)
  {
    match e
    case Ask(_, _) => how := AskBefore(w, e, c);
    case Answer(_, _) => how := AnswerBefore(w, e, c);
    case Relay(_, _, _) => how := Same(c);
    case Local(_, _, _) => how := Same(c);
  }

  /** Event `i` accepted a call on `key`, the name has been busy since, and the chain `f` now on it serves that call. */
  ghost predicate StartedAt(ws: seq<World>, events: seq<Event>, i: nat, m: nat, key: Key, f: Flight)
    requires |ws| == |events| + 1 && m <= |events|
  {
    && i < m && Asked(ws, events, i, key)
    && (forall j {:trigger Busy(ws[j], key)} :: i < j <= m ==> Busy(ws[j], key))
    && key in ws[m].reg.names.subs
    && Serves(ws[i].reg, events[i].x, events[i].call, ws[m].reg.names.subs[key], f)
  }

  /** Event `i` is an accepted call on the name. */
  ghost predicate Asked(ws: seq<World>, events: seq<Event>, i: nat, key: Key)
    requires i < |events| < |ws|
  {
    events[i].Ask? && OnName(events[i].call) && NameKey(events[i].call) == key && Apply(ws[i].reg, events[i].x, events[i].call).Some?
  }

  lemma OriginNew(ws: seq<World>, events: seq<Event>, m: nat, c: nat)
    requires |ws| == |events| + 1 && 0 < m <= |events| && ws[m] == Agreement.Next(ws[m - 1], events[m - 1])
    requires c < |ws[m].chains| && !ws[m].chains[c].flight.RefundFlight? && CameBy(ws[m - 1], events[m - 1], c, New)
    ensures StartedAt(ws, events, m - 1, m, KeyOfFlight(ws[m].chains[c].flight), ws[m].chains[c].flight)
  {
    assert On(ws[m].chains[c], KeyOfFlight(ws[m].chains[c].flight));
    CallsStartTheirChain(ws[m - 1].reg, events[m - 1].x, events[m - 1].call);
  }

  lemma OriginSame(ws: seq<World>, events: seq<Event>, m: nat, c: nat, b: nat, i: nat)
    requires |ws| == |events| + 1 && 0 < m <= |events| && ws[m] == Agreement.Next(ws[m - 1], events[m - 1])
    requires c < |ws[m].chains| && !ws[m].chains[c].flight.RefundFlight? && CameBy(ws[m - 1], events[m - 1], c, Same(b))
    requires StartedAt(ws, events, i, m - 1, KeyOfFlight(ws[m].chains[c].flight), ws[m].chains[c].flight)
    ensures StartedAt(ws, events, i, m, KeyOfFlight(ws[m].chains[c].flight), ws[m].chains[c].flight)
  {
    assert On(ws[m].chains[c], KeyOfFlight(ws[m].chains[c].flight));
    Extends(ws, events, i, m, KeyOfFlight(ws[m].chains[c].flight), ws[m].chains[c].flight);
  }

  lemma OriginOnward(ws: seq<World>, events: seq<Event>, m: nat, c: nat, b: nat, i: nat)
    requires |ws| == |events| + 1 && 0 < m <= |events| && ws[m] == Agreement.Next(ws[m - 1], events[m - 1])
    requires c < |ws[m].chains| && !ws[m].chains[c].flight.RefundFlight? && CameBy(ws[m - 1], events[m - 1], c, Onward(b))
    requires StartedAt(ws, events, i, m - 1, KeyOfFlight(ws[m - 1].chains[b].flight), ws[m - 1].chains[b].flight)
    ensures StartedAt(ws, events, i, m, KeyOfFlight(ws[m].chains[c].flight), ws[m].chains[c].flight)
  {
    assert On(ws[m].chains[c], KeyOfFlight(ws[m].chains[c].flight));
    ServedOnward(ws[m - 1], events[m - 1], c, b, ws[i].reg, events[i].x, events[i].call);
  }

  lemma ServedOnward(w: World, e: Event, c: nat, b: nat, s0: Registry, x: Ctx, call: Call)
    requires c < |Agreement.Next(w, e).chains| && !Agreement.Next(w, e).chains[c].flight.RefundFlight? && CameBy(w, e, c, Onward(b))
    requires OnName(call) && KeyOfFlight(w.chains[b].flight) in w.reg.names.subs
    requires Serves(s0, x, call, w.reg.names.subs[KeyOfFlight(w.chains[b].flight)], w.chains[b].flight)
    ensures var f, key, subs := Agreement.Next(w, e).chains[c].flight, KeyOfFlight(w.chains[b].flight), Agreement.Next(w, e).reg.names.subs;
            KeyOfFlight(f) == key && key in subs && Serves(s0, x, call, subs[key], f)
  {
    AnswerReg(w, e);
    GoesOn(s0, x, call, w.reg, e.at, w.chains[b].flight, w.chains[b].answer.value);
  }

  lemma StepOfRun(ws: seq<World>, events: seq<Event>, k: nat)
    requires Agreement.Run(ws, events) && k < |events|
    ensures ws[k + 1] == Agreement.Next(ws[k], events[k]) && Apart(ws[k], events[k]) && Agreed(ws[k])
  {
    RunsAgree(ws, events, k);
  }

  /** One step back: the chain has just been started, or comes of a chain whose origin is its own. */
  lemma OneBack(ws: seq<World>, events: seq<Event>, m: nat, c: nat) returns (first: bool, b: nat)
    requires Agreement.Run(ws, events) && m <= |events| && c < |ws[m].chains| && !ws[m].chains[c].flight.RefundFlight?
    ensures m > 0
    ensures first ==> StartedAt(ws, events, m - 1, m, KeyOfFlight(ws[m].chains[c].flight), ws[m].chains[c].flight)
    ensures !first ==> b < |ws[m - 1].chains| && !ws[m - 1].chains[b].flight.RefundFlight?
    ensures !first ==>
              var f, g := ws[m].chains[c].flight, ws[m - 1].chains[b].flight;
              forall i: nat {:trigger StartedAt(ws, events, i, m - 1, KeyOfFlight(g), g)} ::
                StartedAt(ws, events, i, m - 1, KeyOfFlight(g), g) ==> StartedAt(ws, events, i, m, KeyOfFlight(f), f)
  {
    StepOfRun(ws, events, m - 1);
    var how := ChainBefore(ws[m - 1], events[m - 1], c);
    match how
    case New =>
      OriginNew(ws, events, m, c);
      first, b := true, 0;
    case Same(b') =>
      first, b := false, b';
      forall i: nat | StartedAt(ws, events, i, m - 1, KeyOfFlight(ws[m - 1].chains[b].flight), ws[m - 1].chains[b].flight)
        ensures StartedAt(ws, events, i, m, KeyOfFlight(ws[m].chains[c].flight), ws[m].chains[c].flight)
      {
        OriginSame(ws, events, m, c, b, i);
      }
    case Onward(b') =>
      first, b := false, b';
      forall i: nat | StartedAt(ws, events, i, m - 1, KeyOfFlight(ws[m - 1].chains[b].flight), ws[m - 1].chains[b].flight)
        ensures StartedAt(ws, events, i, m, KeyOfFlight(ws[m].chains[c].flight), ws[m].chains[c].flight)
      {
        OriginOnward(ws, events, m, c, b, i);
      }
  }

  lemma {:induction false} ChainOrigin(ws: seq<World>, events: seq<Event>, m: nat, c: nat) returns (i: nat)
    requires Agreement.Run(ws, events) && m <= |events| && c < |ws[m].chains| && !ws[m].chains[c].flight.RefundFlight?
    ensures StartedAt(ws, events, i, m, KeyOfFlight(ws[m].chains[c].flight), ws[m].chains[c].flight)
    decreases m
  {
    var first, b := OneBack(ws, events, m, c);
    if first {
      i := m - 1;
    } else {
      i := ChainOrigin(ws, events, m - 1, b);
    }
  }

  lemma Extends(ws: seq<World>, events: seq<Event>, i: nat, m: nat, key: Key, f: Flight)
    requires |ws| == |events| + 1 && 0 < m <= |events| && StartedAt(ws, events, i, m - 1, key, f)
    requires Busy(ws[m], key) && EntryAt(ws[m].reg, key) == EntryAt(ws[m - 1].reg, key)
    ensures StartedAt(ws, events, i, m, key, f)
  {
  }

  // ---------------------------------------------------------------- what runs deliver

  /** Event `k` settles the chain `c` on `key`. */
  ghost predicate Settles(ws: seq<World>, events: seq<Event>, k: nat, c: nat, key: Key)
    requires k < |events| < |ws|
  {
    events[k].Answer? && events[k].chain == c < |ws[k].chains| && ws[k].chains[c].answer.Some? && On(ws[k].chains[c], key)
  }

  /**
   Every deciding settlement answers one earlier accepted call on its name, which has been busy since,
   and leaves what that call promised if it succeeded and what the call found if it failed.
   */
  lemma SettlementsAnswerCalls(ws: seq<World>, events: seq<Event>, k: nat, c: nat, key: Key) returns (i: nat)
    requires Agreement.Run(ws, events) && k < |events| && Settles(ws, events, k, c, key)
    requires Decisive(ws[k].chains[c].flight) && !HandedBack(ws[k].chains[c].flight)
    ensures i < k && Asked(ws, events, i, key) && (forall j {:trigger Busy(ws[j], key)} :: i < j <= k ==> Busy(ws[j], key))
    ensures EntryAt(ws[k + 1].reg, key)
            == if ws[k].chains[c].answer == Some(Succeeded) then Promised(ws[i].reg, events[i].x, events[i].call)
               else Denied(ws[i].reg, events[i].x, events[i].call)
  {
    i := ChainOrigin(ws, events, k, c);
    StepOfRun(ws, events, k);
    AnswerDelivers(ws[k], events[k], c);
  }

  lemma AnswerDelivers(w: World, e: Event, c: nat)
    requires Agreed(w) && e.Answer? && e.chain == c < |w.chains| && w.chains[c].answer.Some? && Decisive(w.chains[c].flight)
    ensures KeyOfFlight(w.chains[c].flight) in w.reg.names.subs
    ensures var f, key := w.chains[c].flight, KeyOfFlight(w.chains[c].flight);
            EntryAt(Agreement.Next(w, e).reg, key)
            == if w.chains[c].answer == Some(Succeeded) then OnSuccess(w.reg.names.subs[key], f) else OnFailure(w.reg.names.subs[key], f)
  {
    assert ChainInStep(w, w.chains[c]);
    Delivers(w.reg, e.at, w.chains[c].flight, w.chains[c].answer.value);
  }

  lemma BusySince(ws: seq<World>, events: seq<Event>, i: nat, i': nat, k: nat, key: Key)
    requires Agreement.Run(ws, events) && i < k && i' < k && k <= |events|
    requires Asked(ws, events, i, key) && Asked(ws, events, i', key)
    requires forall j {:trigger Busy(ws[j], key)} :: i < j <= k ==> Busy(ws[j], key)
    requires forall j {:trigger Busy(ws[j], key)} :: i' < j <= k ==> Busy(ws[j], key)
    ensures i == i'
  {
    AskTouches(ws[i].reg, events[i].x, events[i].call);
    AskTouches(ws[i'].reg, events[i'].x, events[i'].call);
    assert Apart(ws[i], events[i]) && Apart(ws[i'], events[i']);
  }

  /**
   A call keeps its word: if the name stays busy from an accepted call to the settlement that decides it,
   a success leaves the entry that call promised and a failure what it found.
   */
  lemma CallsKeepTheirWord(ws: seq<World>, events: seq<Event>, i: nat, k: nat, c: nat)
    requires Agreement.Run(ws, events) && i < k < |events| && events[i].Ask? && OnName(events[i].call)
    requires Asked(ws, events, i, NameKey(events[i].call)) && Settles(ws, events, k, c, NameKey(events[i].call))
    requires Decisive(ws[k].chains[c].flight) && !HandedBack(ws[k].chains[c].flight)
    requires forall j {:trigger Busy(ws[j], NameKey(events[i].call))} :: i < j <= k ==> Busy(ws[j], NameKey(events[i].call))
    ensures EntryAt(ws[k + 1].reg, NameKey(events[i].call))
            == if ws[k].chains[c].answer == Some(Succeeded) then Promised(ws[i].reg, events[i].x, events[i].call)
               else Denied(ws[i].reg, events[i].x, events[i].call)
  {
    var i' := SettlementsAnswerCalls(ws, events, k, c, NameKey(events[i].call));
    BusySince(ws, events, i, i', k, NameKey(events[i].call));
  }

  /** Whatever a deciding settlement leaves, the wallet matches it at once. */
  lemma SettledWalletMatches(ws: seq<World>, events: seq<Event>, k: nat, c: nat, key: Key)
    requires Agreement.Run(ws, events) && k < |events| && Settles(ws, events, k, c, key) && Decisive(ws[k].chains[c].flight)
    ensures key in ws[k + 1].reg.names.subs ==> Matches(ws[k + 1].reg.names.subs[key], WalletAt(ws[k + 1], key))
  {
    StepOfRun(ws, events, k);
    assert ChainInStep(ws[k], ws[k].chains[c]);
    AnswerReg(ws[k], events[k]);
    LandsMatching(ws[k].reg, events[k].at, ws[k].chains[c].flight, WalletAt(ws[k], key), ws[k].chains[c].answer.value);
  }

  lemma LandsMatching(s: Registry, now: nat, f: Flight, w: Option<W.Wallet>, outcome: Outcome)
    requires Decisive(f) && KeyOfFlight(f) in s.names.subs && InStep(s.names.subs[KeyOfFlight(f)], w, Chain(f, Some(outcome)))
    ensures var s', key := AfterSettle(s, now, f, outcome), KeyOfFlight(f);
            key in s'.names.subs ==> Matches(s'.names.subs[key], w)
  {
    Lands(s, now, f, w, outcome);
    if Settle(s, now, f, outcome).Some? && Settle(s, now, f, outcome).value.flight.Some? {
      Onwards(s, now, f, outcome);
    }
  }

  /** A name handed on by its owner ends up, entry and wallet, with the receiver the call named. */
  lemma HandedNamesArrive(ws: seq<World>, events: seq<Event>, i: nat, k: nat, c: nat, key: Key, to: AccountId)
    requires Agreement.Run(ws, events) && i < k < |events| && events[i].Ask? && (Hands(events[i].call) || events[i].call.Recover?)
    requires NameKey(events[i].call) == key && events[i].call.to == to && Asked(ws, events, i, key) && Settles(ws, events, k, c, key)
    requires Decisive(ws[k].chains[c].flight) && !HandedBack(ws[k].chains[c].flight) && ws[k].chains[c].answer == Some(Succeeded)
    requires forall j {:trigger Busy(ws[j], key)} :: i < j <= k ==> Busy(ws[j], key)
    ensures key in ws[i].reg.names.subs && key in ws[k + 1].reg.names.subs && key in ws[k + 1].wallets
    ensures var was, sub, wallet := ws[i].reg.names.subs[key], ws[k + 1].reg.names.subs[key], ws[k + 1].wallets[key];
            && sub.owner == to && wallet.owner == to && wallet.payout == sub.payout
            && sub.payout == (if Hands(events[i].call) && to in ws[i].reg.cfg.venues then was.payout else to)
  {
    CallsKeepTheirWord(ws, events, i, k, c);
    CallsStartTheirChain(ws[i].reg, events[i].x, events[i].call);
    SettledWalletMatches(ws, events, k, c, key);
  }

  /** The tenant and payout a new lease is for: whoever pays may name another tenant, and a paid order its payout. */
  function LeaseTo(x: Ctx, call: Call): (AccountId, AccountId)
    requires call.Rent? || call.RentPaid? || call.ClaimName?
  {
    match call
    case Rent(_, _, owner) => if owner.Some? then (owner.value, owner.value) else (x.caller, x.caller)
    case RentPaid(_, _, holder, payout, _) => (holder, payout)
    case ClaimName(_, _) => (x.caller, x.caller)
  }

  /** A rented, paid-for or claimed name ends up, entry and wallet, with the tenant, payout and term the call was for. */
  lemma LeasedNamesArrive(ws: seq<World>, events: seq<Event>, i: nat, k: nat, c: nat, key: Key)
    requires Agreement.Run(ws, events) && i < k < |events| && events[i].Ask?
    requires events[i].call.Rent? || events[i].call.RentPaid? || events[i].call.ClaimName?
    requires NameKey(events[i].call) == key && Asked(ws, events, i, key) && Settles(ws, events, k, c, key)
    requires Decisive(ws[k].chains[c].flight) && !HandedBack(ws[k].chains[c].flight) && ws[k].chains[c].answer == Some(Succeeded)
    requires forall j {:trigger Busy(ws[j], key)} :: i < j <= k ==> Busy(ws[j], key)
    ensures key in ws[k + 1].reg.names.subs && key in ws[k + 1].wallets
    ensures var sub, wallet := ws[k + 1].reg.names.subs[key], ws[k + 1].wallets[key];
            && (sub.owner, sub.payout) == (wallet.owner, wallet.payout) == LeaseTo(events[i].x, events[i].call)
            && sub.expiresAt == wallet.leaseUntil == SatAdd(events[i].x.now, ws[i].reg.cfg.leaseTerm)
  {
    CallsKeepTheirWord(ws, events, i, k, c);
    SettledWalletMatches(ws, events, k, c, key);
  }

  // ---------------------------------------------------------------- who can move a name

  lemma OwnerKept(w: World, e: Event, key: Key) returns (c: nat)
    requires Agreed(w) && Apart(w, e)
    requires key in w.reg.names.subs && key in Agreement.Next(w, e).reg.names.subs
    requires Agreement.Next(w, e).reg.names.subs[key].owner != w.reg.names.subs[key].owner
    ensures e.Answer? && e.chain == c < |w.chains| && w.chains[c].answer.Some? && On(w.chains[c], key)
    ensures w.chains[c].flight.MoveFlight? || w.chains[c].flight.ReturnFlight? || w.chains[c].flight.RecoverFlight?
    ensures w.chains[c].answer == Some(Succeeded)
    ensures Agreement.Next(w, e).reg.names.subs[key].owner == w.chains[c].flight.to
  {
    if e.Ask? {
      if Apply(w.reg, e.x, e.call).Some? {
        AskKeepsOwners(w.reg, e.x, e.call, key);
      }
    } else {
      c := e.chain;
      AnswerKeepsOwners(w, e, key);
    }
  }

  lemma AnswerKeepsOwners(w: World, e: Event, key: Key)
    requires Agreed(w) && e.Answer? && e.chain < |w.chains| && w.chains[e.chain].answer.Some?
    requires key in w.reg.names.subs && key in Agreement.Next(w, e).reg.names.subs
    requires Agreement.Next(w, e).reg.names.subs[key].owner != w.reg.names.subs[key].owner
    ensures var f := w.chains[e.chain].flight;
            && On(w.chains[e.chain], key) && (f.MoveFlight? || f.ReturnFlight? || f.RecoverFlight?)
            && w.chains[e.chain].answer == Some(Succeeded) && Agreement.Next(w, e).reg.names.subs[key].owner == f.to
  {
    AnswerReg(w, e);
    assert ChainInStep(w, w.chains[e.chain]);
    OwnerAfter(w.reg, e.at, w.chains[e.chain].flight, w.chains[e.chain].answer.value, key);
  }

  lemma OwnerAfter(s: Registry, now: nat, f: Flight, outcome: Outcome, key: Key)
    requires f.RefundFlight? || KeyOfFlight(f) in s.names.subs
    requires key in s.names.subs && key in AfterSettle(s, now, f, outcome).names.subs
    requires AfterSettle(s, now, f, outcome).names.subs[key].owner != s.names.subs[key].owner
    ensures !f.RefundFlight? && KeyOfFlight(f) == key && (f.MoveFlight? || f.ReturnFlight? || f.RecoverFlight?)
    ensures outcome.Succeeded? && AfterSettle(s, now, f, outcome).names.subs[key].owner == f.to
  {
    if f.RefundFlight? {
      RefundLaunchesNothing(s, now, f, outcome);
    } else {
      SettleFrame(s, now, f, outcome);
      SettleKeepsOwner(s, now, f, outcome);
    }
  }

  lemma AskKeepsOwners(s: Registry, x: Ctx, call: Call, key: Key)
    requires Apply(s, x, call).Some? && key in s.names.subs
    ensures key in Apply(s, x, call).value.state.names.subs
    ensures Apply(s, x, call).value.state.names.subs[key].owner == s.names.subs[key].owner
  {
    if call.Rent? || call.RentPaid? || call.ClaimName? {
      var s1, kind, m, payout, reRent := MintCall(s, x, call);
    } else if call.Retract? || call.Reclaim? {
      NoticeEffect(s, x, call);
    } else {
      QuietCalls(s, x, call);
    }
  }

  /** Only a move, a give-back or a recovery that succeeded gives a name another owner. */
  lemma SettleKeepsOwner(s: Registry, now: nat, f: Flight, outcome: Outcome)
    requires !f.RefundFlight? && Settle(s, now, f, outcome).Some? && KeyOfFlight(f) in s.names.subs
    ensures var subs, key := Settle(s, now, f, outcome).value.state.names.subs, KeyOfFlight(f);
            key in subs && subs[key].owner != s.names.subs[key].owner ==>
              && (f.MoveFlight? || f.ReturnFlight? || f.RecoverFlight?) && outcome.Succeeded? && subs[key].owner == f.to
  {
    if f.MintFlight? || f.ReRentGate? || f.ReRentFlight? {
      MintNames(s, now, f, outcome);
    } else if f.ReclaimFlight? {
      ReclaimNames(s, now, f, outcome);
    }
  }

  /** Why a name went from one owner to another. */
  ghost predicate Consented(s: Registry, x: Ctx, call: Call, from: AccountId, to: AccountId) {
    || (Hands(call) && x.caller == from && call.to == to)
    || (call.Recover? && x.caller in s.cfg.recoveryAuthorities && call.expected == from && call.to == to)
    || (call.NftTransferCall? && x.caller == to && call.to == from)
  }

  lemma RecoverNeedsAuthority(s: Registry, x: Ctx, call: Call)
    requires call.Recover? && Apply(s, x, call).Some?
    ensures x.caller in s.cfg.recoveryAuthorities && NameKey(call) in s.names.subs && s.names.subs[NameKey(call)].owner == call.expected
  {
  }

  lemma ServedConsent(s0: Registry, x: Ctx, call: Call, sub: Sub, f: Flight)
    requires OnName(call) && Apply(s0, x, call).Some? && Serves(s0, x, call, sub, f) && Expected(sub, f)
    requires f.MoveFlight? || f.ReturnFlight? || f.RecoverFlight?
    ensures Consented(s0, x, call, sub.owner, f.to)
  {
    if f.MoveFlight? {
      HandFor(s0, x, call);
    } else if f.RecoverFlight? {
      RecoverNeedsAuthority(s0, x, call);
    }
  }

  /**
   No name changes hands without consent: in every run of non-overlapping chains, an owner gives way to
   another only because the owner handed the name on, because a recovery authority recovered it from
   them by name, or because a receiver gives back what the new owner had sent it.
   */
  lemma OwnersChangeByConsent(ws: seq<World>, events: seq<Event>, m: nat, key: Key) returns (i: nat)
    requires Agreement.Run(ws, events) && m < |events|
    requires key in ws[m].reg.names.subs && key in ws[m + 1].reg.names.subs
    requires ws[m].reg.names.subs[key].owner != ws[m + 1].reg.names.subs[key].owner
    ensures i < m && Asked(ws, events, i, key)
    ensures Consented(ws[i].reg, events[i].x, events[i].call, ws[m].reg.names.subs[key].owner, ws[m + 1].reg.names.subs[key].owner)
  {
    var w := ws[m];
    RunsAgree(ws, events, m);
    assert ws[m + 1] == Agreement.Next(w, events[m]);
    var c := OwnerKept(w, events[m], key);
    i := ChainOrigin(ws, events, m, c);
    assert ChainInStep(w, w.chains[c]);
    ServedConsent(ws[i].reg, events[i].x, events[i].call, w.reg.names.subs[key], w.chains[c].flight);
  }

  // ---------------------------------------------------------------- who can redirect a payout

  lemma AskKeepsPayouts(s: Registry, x: Ctx, call: Call, key: Key)
    requires Apply(s, x, call).Some? && key in s.names.subs
    ensures key in Apply(s, x, call).value.state.names.subs
    ensures Apply(s, x, call).value.state.names.subs[key].payout == s.names.subs[key].payout
  {
    if call.Rent? || call.RentPaid? || call.ClaimName? {
      var s1, kind, m, payout, reRent := MintCall(s, x, call);
    } else if call.Retract? || call.Reclaim? {
      NoticeEffect(s, x, call);
    } else {
      QuietCalls(s, x, call);
    }
  }

  lemma SettleKeepsPayout(s: Registry, now: nat, f: Flight, outcome: Outcome)
    requires !f.RefundFlight? && Settle(s, now, f, outcome).Some? && KeyOfFlight(f) in s.names.subs
    ensures var subs, key := Settle(s, now, f, outcome).value.state.names.subs, KeyOfFlight(f);
            key in subs && subs[key].payout != s.names.subs[key].payout ==>
              && outcome.Succeeded?
              && (f.MoveFlight? || f.ReturnFlight? || f.RecoverFlight? || (f.PayoutFlight? && subs[key].payout == f.payout))
  {
    if f.MintFlight? || f.ReRentGate? || f.ReRentFlight? {
      MintNames(s, now, f, outcome);
    } else if f.ReclaimFlight? {
      ReclaimNames(s, now, f, outcome);
    }
  }

  lemma AnswerKeepsPayouts(w: World, e: Event, key: Key)
    requires Agreed(w) && e.Answer? && e.chain < |w.chains| && w.chains[e.chain].answer.Some?
    requires key in w.reg.names.subs && key in Agreement.Next(w, e).reg.names.subs
    requires Agreement.Next(w, e).reg.names.subs[key].payout != w.reg.names.subs[key].payout
    ensures var f := w.chains[e.chain].flight;
            && On(w.chains[e.chain], key)
            && (f.MoveFlight? || f.ReturnFlight? || f.RecoverFlight?
                || (f.PayoutFlight? && Agreement.Next(w, e).reg.names.subs[key].payout == f.payout))
  {
    AnswerReg(w, e);
    assert ChainInStep(w, w.chains[e.chain]);
    PayoutAfterSettle(w.reg, e.at, w.chains[e.chain].flight, w.chains[e.chain].answer.value, key);
  }

  lemma PayoutAfterSettle(s: Registry, now: nat, f: Flight, outcome: Outcome, key: Key)
    requires f.RefundFlight? || KeyOfFlight(f) in s.names.subs
    requires key in s.names.subs && key in AfterSettle(s, now, f, outcome).names.subs
    requires AfterSettle(s, now, f, outcome).names.subs[key].payout != s.names.subs[key].payout
    ensures !f.RefundFlight? && KeyOfFlight(f) == key
    ensures f.MoveFlight? || f.ReturnFlight? || f.RecoverFlight?
            || (f.PayoutFlight? && AfterSettle(s, now, f, outcome).names.subs[key].payout == f.payout)
  {
    if f.RefundFlight? {
      RefundLaunchesNothing(s, now, f, outcome);
    } else {
      SettleFrame(s, now, f, outcome);
      SettleKeepsPayout(s, now, f, outcome);
    }
  }

  lemma SetPayoutNeedsSay(s: Registry, x: Ctx, call: Call)
    requires call.SetPayout? && Apply(s, x, call).Some?
    ensures NameKey(call) in s.names.subs
    ensures x.caller == s.names.subs[NameKey(call)].owner || (call.tla in s.tlas && s.tlas[call.tla].licensee == Some(x.caller))
  {
  }

  /**
   No payout is redirected behind its holder's back: it changes with a hand-over, a give-back or a
   recovery of the name, or to what its owner, or the licensee of its business account, asked for.
   */
  lemma PayoutsChangeByConsent(ws: seq<World>, events: seq<Event>, m: nat, key: Key) returns (i: nat)
    requires Agreement.Run(ws, events) && m < |events|
    requires key in ws[m].reg.names.subs && key in ws[m + 1].reg.names.subs
    requires ws[m].reg.names.subs[key].payout != ws[m + 1].reg.names.subs[key].payout
    ensures i < m && Asked(ws, events, i, key)
    ensures var s, x, call := ws[i].reg, events[i].x, events[i].call;
            || Hands(call) || call.Recover?
            || (&& call.SetPayout? && call.payout == ws[m + 1].reg.names.subs[key].payout && key in s.names.subs
                && (x.caller == s.names.subs[key].owner || (call.tla in s.tlas && s.tlas[call.tla].licensee == Some(x.caller))))
  {
    var w, e := ws[m], events[m];
    StepOfRun(ws, events, m);
    OnlyAnswersRedirect(w, e, key);
    AnswerKeepsPayouts(w, e, key);
    i := ChainOrigin(ws, events, m, e.chain);
    if events[i].call.SetPayout? {
      SetPayoutNeedsSay(ws[i].reg, events[i].x, events[i].call);
    }
  }

  lemma OnlyAnswersRedirect(w: World, e: Event, key: Key)
    requires key in w.reg.names.subs && key in Agreement.Next(w, e).reg.names.subs
    requires Agreement.Next(w, e).reg.names.subs[key].payout != w.reg.names.subs[key].payout
    ensures e.Answer? && e.chain < |w.chains| && w.chains[e.chain].answer.Some?
  {
    if e.Ask? && Apply(w.reg, e.x, e.call).Some? {
      AskKeepsPayouts(w.reg, e.x, e.call, key);
    }
  }

  // ---------------------------------------------------------------- where the balance goes

  /** What the wallet leg of a chain sends away of its balance, and to whom. */
  function LegSweep(w: W.Wallet, ctx: W.Ctx, f: Flight): Option<(AccountId, nat)> {
    match f
    case MoveFlight(_, _, _, _, to, cause) => W.RotationSweep(w, ctx, Some(to), cause)
    case ReclaimFlight(_, _) => W.RotationSweep(w, ctx, None, RotationCause.Reclaim)
    case _ => None
  }

  /**
   Whoever gives a name up is paid out: when a transfer, deposit or reclaim is carried out, the whole free
   balance, and nothing of the reserve, goes to the payout account the registry has on record, unless that
   is the receiver itself.
   */
  lemma OutgoingHoldersArePaid(ws: seq<World>, events: seq<Event>, k: nat, c: nat, key: Key, ctx: W.Ctx)
    requires Agreement.Run(ws, events) && k <= |events| && c < |ws[k].chains| && On(ws[k].chains[c], key) && ws[k].chains[c].answer.None?
    requires ws[k].chains[c].flight.MoveFlight? || ws[k].chains[c].flight.ReclaimFlight?
    requires key in ws[k].wallets && ws[k].wallets[key].payout != ws[k].wallets[key].account
    ensures key in ws[k].reg.names.subs
    ensures var f, payout, free := ws[k].chains[c].flight, ws[k].reg.names.subs[key].payout, ctx.balance - ctx.deposit - ctx.reserve;
            LegSweep(ws[k].wallets[key], ctx, f)
            == if free > 0 && !(f.MoveFlight? && f.to == payout) then Some((payout, free)) else None
  {
    RunsAgree(ws, events, k);
    assert ChainInStep(ws[k], ws[k].chains[c]);
    LegSweepOf(ws[k].reg.names.subs[key], ws[k].wallets[key], ctx, ws[k].chains[c].flight);
  }

  lemma LegSweepOf(sub: Sub, w: W.Wallet, ctx: W.Ctx, f: Flight)
    requires (f.MoveFlight? || f.ReclaimFlight?) && Expected(sub, f) && w.payout == sub.payout && w.payout != w.account
    ensures LegSweep(w, ctx, f)
            == if ctx.balance - ctx.deposit - ctx.reserve > 0 && !(f.MoveFlight? && f.to == sub.payout)
               then Some((sub.payout, ctx.balance - ctx.deposit - ctx.reserve)) else None
  {
  }
}
