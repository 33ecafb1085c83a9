/** Every run keeps the two indexes exact, and business counts equal to what they count. */
module IndexRuns {
  import opened Common
  import opened RegistryTypes
  import opened NameTable
  import opened RegistryModel

  /** `key` is some valid name under `tla`. */
  predicate Keyed(key: Key, tla: AccountId) {
    var cut := |key| - |tla| - 1;
    cut >= 0 && ValidName(key[..cut]) && key == KeyOf(tla, key[..cut])
  }

  predicate Entered(s: Registry, key: Key)
    requires key in s.names.subs
  {
    Keyed(key, s.names.subs[key].tla) && s.names.subs[key].tla in s.tlas
  }

  ghost predicate Sound(s: Registry) {
    Indexed(s.names) && forall key :: key in s.names.subs ==> Entered(s, key)
  }

  function FlightTla(f: Flight): AccountId
    requires !f.RefundFlight?
  {
    if f.MintFlight? || f.ReRentGate? || f.ReRentFlight? then f.m.tla else f.tla
  }

  function FlightName(f: Flight): string
    requires !f.RefundFlight?
  {
    if f.MintFlight? || f.ReRentGate? || f.ReRentFlight? then f.m.name else f.name
  }

  predicate Named(f: Flight) {
    !f.RefundFlight? ==> ValidName(FlightName(f))
  }

  ghost predicate AllNamed(fs: seq<Flight>) {
    forall i :: 0 <= i < |fs| ==> Named(fs[i])
  }

  /** The counter kept for a business account is the number of names listed under it. */
  predicate CountExact(s: Registry, t: AccountId) {
    Count(s, t) == |Bucket(s.names.byTla, t)|
  }

  predicate NotOpen(s: Registry, t: AccountId) {
    t in s.tlas ==> s.tlas[t].kind.Business?
  }

  /** What one step keeps: the indexes, and the count of `t` as long as `t` is not an open account. */
  ghost predicate Keeps(s: Registry, s': Registry, t: AccountId) {
    && Sound(s')
    && (NotOpen(s, t) && CountExact(s, t) ==> CountExact(s', t))
  }

  lemma KeyedOf(tla: AccountId, name: string)
    requires ValidName(name)
    ensures Keyed(KeyOf(tla, name), tla)
  {
    var key := KeyOf(tla, name);
    assert key[..|key| - |tla| - 1] == name;
  }

  /** An entry found under a valid name of `tla` belongs to `tla`. */
  lemma TlaOfEntry(s: Registry, tla: AccountId, name: string)
    requires Sound(s) && ValidName(name) && KeyOf(tla, name) in s.names.subs
    ensures s.names.subs[KeyOf(tla, name)].tla == tla
  {
    var key := KeyOf(tla, name);
    var t := s.names.subs[key].tla;
    assert Entered(s, key);
    KeysAreDistinct(tla, name, t, key[..|key| - |t| - 1]);
  }

  lemma SameNames(s: Registry, s': Registry, t: AccountId)
    requires Sound(s)
    requires s'.names.subs == s.names.subs && s'.names.byOwner == s.names.byOwner && s'.names.byTla == s.names.byTla
    requires s'.businessCount == s.businessCount
    requires forall a :: a in s.tlas ==> a in s'.tlas
    ensures Keeps(s, s', t)
  {
    forall key | key in s'.names.subs
      ensures Entered(s', key)
    {
      assert Entered(s, key);
    }
  }

  lemma Amended(s: Registry, s': Registry, key: Key, sub: Sub, t: AccountId)
    requires Sound(s) && key in s.names.subs && sub.owner == s.names.subs[key].owner && sub.tla == s.names.subs[key].tla
    requires s'.names == s.names.(subs := s.names.subs[key := sub])
    requires s'.businessCount == s.businessCount && s'.tlas == s.tlas
    ensures Keeps(s, s', t)
  {
    AmendIndexes(s.names, key, sub);
    forall k | k in s'.names.subs
      ensures Entered(s', k)
    {
      assert Entered(s, k);
    }
  }

  lemma Reassigned(s: Registry, s': Registry, key: Key, owner: AccountId, payout: AccountId, t: AccountId)
    requires Sound(s) && key in s.names.subs
    requires s'.names == Reassign(s.names, key, owner, payout)
    requires s'.businessCount == s.businessCount && s'.tlas == s.tlas
    ensures Keeps(s, s', t)
  {
    ReassignIndexes(s.names, key, owner, payout);
    forall k | k in s'.names.subs
      ensures Entered(s', k)
    {
      assert Entered(s, k);
    }
  }

  /** Writing a new entry and its count together. */
  lemma Entering(s: Registry, s': Registry, name: string, sub: Sub, t: AccountId)
    requires Sound(s) && ValidName(name) && KeyOf(sub.tla, name) !in s.names.subs && sub.tla in s.tlas
    requires s'.names == Insert(s.names, KeyOf(sub.tla, name), sub) && s'.tlas == s.tlas
    requires s'.businessCount == if IsBusiness(s, sub.tla) then Bump(s, sub.tla).businessCount else s.businessCount
    ensures Keeps(s, s', t)
  {
    var key := KeyOf(sub.tla, name);
    InsertIndexes(s.names, key, sub);
    KeyedOf(sub.tla, name);
    forall k | k in s'.names.subs
      ensures Entered(s', k)
    {
      if k != key {
        assert Entered(s, k);
      }
    }
  }

  lemma MintStarted(s: Registry, now: nat, kind: MintKind, m: Settlement, payout: AccountId, reRent: bool, t: AccountId)
    requires Sound(s) && ValidName(m.name) && KeyOf(m.tla, m.name) !in s.names.subs && m.tla in s.tlas
    ensures Keeps(s, StartMint(s, now, kind, m, payout, reRent).state, t)
    ensures StartMint(s, now, kind, m, payout, reRent).flight.Some? && Named(StartMint(s, now, kind, m, payout, reRent).flight.value)
  {
    Entering(s, StartMint(s, now, kind, m, payout, reRent).state, m.name,
             Sub(m.owner, m.tla, payout, now, SatAdd(now, s.cfg.leaseTerm), None), t);
  }

  /** Withdrawing an entry and its count together. */
  lemma Withdrawn(s: Registry, s': Registry, tla: AccountId, name: string, t: AccountId)
    requires Sound(s) && ValidName(name) && KeyOf(tla, name) in s.names.subs
    requires s'.names == Remove(s.names, KeyOf(tla, name))
    requires s'.tlas == s.tlas && s'.businessCount == Unbump(s, tla).businessCount
    ensures Keeps(s, s', t)
  {
    var key := KeyOf(tla, name);
    TlaOfEntry(s, tla, name);
    RemoveIndexes(s.names, key);
    assert Entered(s, key);
    forall k | k in s'.names.subs
      ensures Entered(s', k)
    {
      assert Entered(s, k);
    }
  }

  lemma FailedKeeps(s: Registry, m: Settlement, t: AccountId)
    requires Sound(s) && ValidName(m.name)
    ensures Keeps(s, SettleFailed(s, m), t)
  {
    if KeyOf(m.tla, m.name) in s.names.subs {
      Withdrawn(s, SettleFailed(s, m), m.tla, m.name, t);
    }
  }

  lemma StrandedKeeps(s: Registry, m: Settlement, now: nat, t: AccountId)
    requires Sound(s) && ValidName(m.name)
    ensures Keeps(s, SettleStranded(s, m, now), t)
  {
    FailedKeeps(s, m, t);
    SameNames(SettleFailed(s, m), SettleStranded(s, m, now), t);
  }

  // ---------------------------------------------------------------- one step

  lemma RentKeeps(s: Registry, x: Ctx, call: Call, t: AccountId)
    requires Sound(s) && Apply(s, x, call).Some? && (call.Rent? || call.RentPaid? || call.ClaimName?)
    ensures Keeps(s, Apply(s, x, call).value.state, t)
    ensures var f := Apply(s, x, call).value.flight; f.Some? && Named(f.value)
  {
    var done := Apply(s, x, call).value;
    match call
    case Rent(tla, name, owner) =>
      var holder := if owner.Some? then owner.value else x.caller;
      var rent := Price(s, NameRent(s, tla, name), x.now);
      MintStarted(s, x.now, Rental, Settlement(tla, name, holder, x.caller, rent.value, x.deposit, None), holder, KeyOf(tla, name) in s.parked, t);
    case RentPaid(tla, name, holder, payout, id) =>
      var s1 := s.(ord := Reserve(s.ord, id, KeyOf(tla, name), tla, x.caller, x.now));
      SameNames(s, s1, t);
      MintStarted(s1, x.now, PaidRental, Settlement(tla, name, holder, x.caller, 0, x.deposit, Some(id)), payout, KeyOf(tla, name) in s.parked, t);
    case ClaimName(tla, name) =>
      var s1 := Marked(s, tla, name, x.caller);
      SameNames(s, s1, t);
      MintStarted(s1, x.now, BusinessClaim, Settlement(tla, name, x.caller, x.caller, 0, x.deposit, None), x.caller, false, t);
  }

  /** Every call that mints starts the same way, from a free name, with its deposit covering what it will be charged. */
  lemma MintCall(s: Registry, x: Ctx, call: Call) returns (s1: Registry, kind: MintKind, m: Settlement, payout: AccountId, reRent: bool)
    requires Apply(s, x, call).Some? && (call.Rent? || call.RentPaid? || call.ClaimName?)
    ensures Apply(s, x, call).value == StartMint(s1, x.now, kind, m, payout, reRent) && m.tla == call.tla && m.name == call.name
    ensures s1.names.subs == s.names.subs && s1.parked == s.parked && s1.subCount == s.subCount && s1.cfg == s.cfg
    ensures KeyOf(m.tla, m.name) !in s.names.subs && (reRent <==> KeyOf(m.tla, m.name) in s.parked)
    ensures m.payer == x.caller && m.orderId == (if call.RentPaid? then Some(call.orderId) else None)
    ensures m.attached == x.deposit >= m.rent + if reRent then 0 else s.cfg.fees.creationDeposit
  {
    match call
    case Rent(tla, name, owner) =>
      var holder := if owner.Some? then owner.value else x.caller;
      var rent := Price(s, NameRent(s, tla, name), x.now);
      s1, kind, payout, reRent := s, Rental, holder, KeyOf(tla, name) in s.parked;
      m := Settlement(tla, name, holder, x.caller, rent.value, x.deposit, None);
    case RentPaid(tla, name, holder, to, id) =>
      s1 := s.(ord := Reserve(s.ord, id, KeyOf(tla, name), tla, x.caller, x.now));
      kind, payout, reRent := PaidRental, to, KeyOf(tla, name) in s.parked;
      m := Settlement(tla, name, holder, x.caller, 0, x.deposit, Some(id));
    case ClaimName(tla, name) =>
      s1, kind, payout, reRent := Marked(s, tla, name, x.caller), BusinessClaim, x.caller, false;
      m := Settlement(tla, name, x.caller, x.caller, 0, x.deposit, None);
  }

  /** Giving notice dates the entry and changes nothing else about the names. */
  lemma NoticeEffect(s: Registry, x: Ctx, call: Call)
    requires Apply(s, x, call).Some? && (call.Retract? || call.Reclaim?)
    ensures var done, key := Apply(s, x, call).value, KeyOf(call.tla, call.name);
            && key in s.names.subs && done.state.businessCount == s.businessCount && done.state.tlas == s.tlas
            && (done.state.names == s.names
                || done.state.names == s.names.(subs := s.names.subs[key := s.names.subs[key].(retractionAt := Some(x.now))]))
            && done.flight.Some? && !done.flight.value.RefundFlight? && Named(done.flight.value)
  {
  }

  lemma NoticeKeeps(s: Registry, x: Ctx, call: Call, t: AccountId)
    requires Sound(s) && Apply(s, x, call).Some? && (call.Retract? || call.Reclaim?)
    ensures Keeps(s, Apply(s, x, call).value.state, t)
    ensures var f := Apply(s, x, call).value.flight; f.Some? && Named(f.value)
  {
    NoticeEffect(s, x, call);
    var s' := Apply(s, x, call).value.state;
    var key := KeyOf(call.tla, call.name);
    if s'.names == s.names {
      SameNames(s, s', t);
    } else {
      Amended(s, s', key, s.names.subs[key].(retractionAt := Some(x.now)), t);
    }
  }

  lemma CallKeeps(s: Registry, x: Ctx, call: Call, t: AccountId)
    requires Sound(s) && Apply(s, x, call).Some?
    ensures Keeps(s, Apply(s, x, call).value.state, t)
    ensures var f := Apply(s, x, call).value.flight; f.Some? ==> Named(f.value)
  {
    if call.Rent? || call.RentPaid? || call.ClaimName? {
      RentKeeps(s, x, call, t);
    } else if call.Retract? || call.Reclaim? {
      NoticeKeeps(s, x, call, t);
    } else {
      QuietCalls(s, x, call);
      SameNames(s, Apply(s, x, call).value.state, t);
    }
  }

  /** Calls that only check and start a chain on a name. */
  predicate Asks(call: Call) {
    || call.RenewSub? || call.SetPayout? || call.TransferSub? || call.NftTransfer? || call.NftTransferCall?
    || call.Recover? || call.CancelRetraction?
  }

  lemma AskingCalls(s: Registry, x: Ctx, call: Call)
    requires Apply(s, x, call).Some? && Asks(call)
    ensures Apply(s, x, call).value.state == s.(money := Apply(s, x, call).value.state.money)
    ensures Apply(s, x, call).value.flight.Some? && Named(Apply(s, x, call).value.flight.value)
  {
  }

  lemma OtherCalls(s: Registry, x: Ctx, call: Call)
    requires Apply(s, x, call).Some? && !Asks(call)
    requires !call.Rent? && !call.RentPaid? && !call.ClaimName? && !call.Retract? && !call.Reclaim?
    ensures var s' := Apply(s, x, call).value.state;
            s'.names == s.names && s'.businessCount == s.businessCount && (forall a :: a in s.tlas ==> a in s'.tlas)
    ensures Apply(s, x, call).value.flight.Some? ==> Apply(s, x, call).value.flight.value.RefundFlight?
  {
  }

  /** All other calls leave the entries and the counts alone. */
  lemma QuietCalls(s: Registry, x: Ctx, call: Call)
    requires Apply(s, x, call).Some?
    requires !call.Rent? && !call.RentPaid? && !call.ClaimName? && !call.Retract? && !call.Reclaim?
    ensures var s' := Apply(s, x, call).value.state;
            s'.names == s.names && s'.businessCount == s.businessCount && (forall a :: a in s.tlas ==> a in s'.tlas)
    ensures var f := Apply(s, x, call).value.flight; f.Some? ==> Named(f.value)
  {
    if Asks(call) {
      AskingCalls(s, x, call);
    } else {
      OtherCalls(s, x, call);
    }
  }

  /** A mint or re-rent that succeeds, or goes on, keeps the entry; one that fails withdraws it. */
  lemma MintNames(s: Registry, now: nat, f: Flight, outcome: Outcome)
    requires (f.MintFlight? || f.ReRentFlight? || f.ReRentGate?) && Settle(s, now, f, outcome).Some?
    ensures Settle(s, now, f, outcome).value.state.names
            == if outcome.Succeeded? then s.names else Remove(s.names, KeyOf(f.m.tla, f.m.name))
  {
  }

  /** The callbacks that change an entry's terms change nothing else about the names. */
  lemma AmendNames(s: Registry, now: nat, f: Flight, outcome: Outcome)
    requires (f.RenewFlight? || f.PayoutFlight? || f.RetractFlight? || f.RestoreFlight?) && Settle(s, now, f, outcome).Some?
    ensures var names', key := Settle(s, now, f, outcome).value.state.names, KeyOf(f.tla, f.name);
            names' == s.names
            || (key in s.names.subs && key in names'.subs && names' == s.names.(subs := s.names.subs[key := names'.subs[key]]))
  {
  }

  lemma ReclaimNames(s: Registry, now: nat, f: Flight, outcome: Outcome)
    requires f.ReclaimFlight?
    ensures Settle(s, now, f, outcome).Some?
    ensures Settle(s, now, f, outcome).value.state.names
            == if outcome.Succeeded? then Remove(s.names, KeyOf(f.tla, f.name)) else s.names
  {
  }

  /** Nothing but the entry of `key` differs. */
  ghost predicate OnlyAt(s: Registry, s': Registry, key: Key) {
    forall k :: k != key ==> (k in s'.names.subs <==> k in s.names.subs) && (k in s.names.subs ==> s'.names.subs[k] == s.names.subs[k])
  }

  /** Settling a chain touches no other name. */
  lemma SettleFrame(s: Registry, now: nat, f: Flight, outcome: Outcome)
    requires !f.RefundFlight? && Settle(s, now, f, outcome).Some?
    ensures OnlyAt(s, Settle(s, now, f, outcome).value.state, KeyOf(FlightTla(f), FlightName(f)))
  {
    if f.MintFlight? || f.ReRentGate? || f.ReRentFlight? {
      MintNames(s, now, f, outcome);
    } else if f.MoveFlight? || f.ReturnFlight? || f.RecoverFlight? {
      MoveEffect(s, now, f, outcome);
    } else if f.ReclaimFlight? {
      ReclaimNames(s, now, f, outcome);
    } else if f.RenewFlight? || f.PayoutFlight? || f.RetractFlight? || f.RestoreFlight? {
      AmendNames(s, now, f, outcome);
    } else {
      QuietSettles(s, now, f, outcome);
    }
  }

  lemma MintSettles(s: Registry, now: nat, f: Flight, outcome: Outcome, t: AccountId)
    requires Sound(s) && Named(f) && (f.MintFlight? || f.ReRentFlight? || f.ReRentGate?) && Settle(s, now, f, outcome).Some?
    ensures Keeps(s, Settle(s, now, f, outcome).value.state, t)
  {
    var m := f.m;
    var s' := Settle(s, now, f, outcome).value.state;
    if outcome.Succeeded? {
      SameNames(s, s', t);
    } else {
      var s1 := if f.MintFlight? && f.kind.BusinessClaim? && outcome.CreationFailed?
        then s.(whitelist := s.whitelist + {(m.tla, m.owner)}) else s;
      var s2 := if f.ReRentGate? then s1 else WithRelease(s1, m);
      SameNames(s, s2, t);
      FailedKeeps(s2, m, t);
      StrandedKeeps(s2, m, now, t);
    }
  }

  /** The payout a move that succeeds records. */
  function PayoutAfter(s: Registry, f: Flight): AccountId
    requires (f.MoveFlight? || f.ReturnFlight? || f.RecoverFlight?) && KeyOf(f.tla, f.name) in s.names.subs
  {
    if f.MoveFlight? && !f.cause.RepointsPayout() then s.names.subs[KeyOf(f.tla, f.name)].payout else f.to
  }

  /** A settled move reassigns its name or changes nothing. */
  lemma MoveEffect(s: Registry, now: nat, f: Flight, outcome: Outcome)
    requires (f.MoveFlight? || f.ReturnFlight? || f.RecoverFlight?) && Settle(s, now, f, outcome).Some?
    ensures var s', key := Settle(s, now, f, outcome).value.state, KeyOf(f.tla, f.name);
            s' == s || (key in s.names.subs && s' == s.(names := Reassign(s.names, key, f.to, PayoutAfter(s, f))))
  {
  }

  lemma MoveSettles(s: Registry, now: nat, f: Flight, outcome: Outcome, t: AccountId)
    requires Sound(s) && (f.MoveFlight? || f.ReturnFlight? || f.RecoverFlight?) && Settle(s, now, f, outcome).Some?
    ensures Keeps(s, Settle(s, now, f, outcome).value.state, t)
  {
    var s' := Settle(s, now, f, outcome).value.state;
    MoveEffect(s, now, f, outcome);
    if s' == s {
      SameNames(s, s', t);
    } else {
      Reassigned(s, s', KeyOf(f.tla, f.name), f.to, PayoutAfter(s, f), t);
    }
  }

  lemma AmendSettles(s: Registry, now: nat, f: Flight, outcome: Outcome, t: AccountId)
    requires Sound(s) && (f.RenewFlight? || f.PayoutFlight? || f.RetractFlight? || f.RestoreFlight?)
    requires Settle(s, now, f, outcome).Some?
    ensures Keeps(s, Settle(s, now, f, outcome).value.state, t)
  {
    var s' := Settle(s, now, f, outcome).value.state;
    var key := KeyOf(f.tla, f.name);
    if key in s.names.subs {
      if s'.names == s.names {
        SameNames(s, s', t);
      } else {
        Amended(s, s', key, s'.names.subs[key], t);
      }
    } else {
      SameNames(s, s', t);
    }
  }

  lemma ReclaimSettles(s: Registry, now: nat, f: Flight, outcome: Outcome, t: AccountId)
    requires Sound(s) && Named(f) && f.ReclaimFlight?
    ensures Keeps(s, Settle(s, now, f, outcome).value.state, t)
  {
    var s' := Settle(s, now, f, outcome).value.state;
    if outcome.Succeeded? && KeyOf(f.tla, f.name) in s.names.subs {
      Withdrawn(s, s', f.tla, f.name, t);
    } else {
      SameNames(s, s', t);
    }
  }

  lemma QuietSettles(s: Registry, now: nat, f: Flight, outcome: Outcome)
    requires f.MoveGate? || f.ReceiverFlight? || f.NoticeFlight? || f.ReclaimGate? || f.RefundFlight?
    requires Settle(s, now, f, outcome).Some?
    ensures var s' := Settle(s, now, f, outcome).value.state;
            s'.names == s.names && s'.businessCount == s.businessCount && s'.tlas == s.tlas
  {
  }

  /** A chain that goes on is about the same name. */
  lemma SettleGoesOn(s: Registry, now: nat, f: Flight, outcome: Outcome)
    requires Settle(s, now, f, outcome).Some? && Settle(s, now, f, outcome).value.flight.Some?
    ensures var g := Settle(s, now, f, outcome).value.flight.value;
            !f.RefundFlight? && !g.RefundFlight? && FlightTla(g) == FlightTla(f) && FlightName(g) == FlightName(f)
  {
  }

  lemma SettleKeeps(s: Registry, now: nat, f: Flight, outcome: Outcome, t: AccountId)
    requires Sound(s) && Named(f) && Settle(s, now, f, outcome).Some?
    ensures Keeps(s, Settle(s, now, f, outcome).value.state, t)
    ensures var g := Settle(s, now, f, outcome).value.flight; g.Some? ==> Named(g.value)
  {
    if f.MintFlight? || f.ReRentFlight? || f.ReRentGate? {
      MintSettles(s, now, f, outcome, t);
    } else if f.MoveFlight? || f.ReturnFlight? || f.RecoverFlight? {
      MoveSettles(s, now, f, outcome, t);
    } else if f.RenewFlight? || f.PayoutFlight? || f.RetractFlight? || f.RestoreFlight? {
      AmendSettles(s, now, f, outcome, t);
    } else if f.ReclaimFlight? {
      ReclaimSettles(s, now, f, outcome, t);
    } else {
      QuietSettles(s, now, f, outcome);
      SameNames(s, Settle(s, now, f, outcome).value.state, t);
    }
    if Settle(s, now, f, outcome).value.flight.Some? {
      SettleGoesOn(s, now, f, outcome);
    }
  }

  lemma StepKeeps(w: Net, t: Step, a: AccountId)
    requires Sound(w.reg) && AllNamed(w.flights)
    ensures Keeps(w.reg, Next(w, t).reg, a) && AllNamed(Next(w, t).flights)
  {
    SameNames(w.reg, w.reg, a);
    match t
    case Request(x, call) =>
      if Apply(w.reg, x, call).Some? {
        CallKeeps(w.reg, x, call, a);
      }
    case Deliver(now, i, outcome) =>
      if i < |w.flights| && Settle(w.reg, now, w.flights[i], outcome).Some? {
        SettleKeeps(w.reg, now, w.flights[i], outcome, a);
      }
  }

  // ---------------------------------------------------------------- runs

  predicate Deployed(s: Registry) {
    && s.names == Table(map[], map[], map[], {}) && s.money == Money(0, map[], 0) && s.ord == Orders(map[], map[], map[])
    && s.tlas == map[] && s.businessCount == map[]
  }

  lemma {:induction false} RunKeeps(start: Net, ws: seq<Net>, steps: seq<Step>, i: nat, t: AccountId)
    requires Run(start, ws, steps) && i <= |steps| && Deployed(start.reg) && start.flights == []
    ensures Sound(ws[i].reg) && AllNamed(ws[i].flights)
    ensures (forall j :: 0 <= j < i ==> NotOpen(ws[j].reg, t)) ==> CountExact(ws[i].reg, t)
  {
    if i > 0 {
      RunKeeps(start, ws, steps, i - 1, t);
      assert ws[i - 1 + 1] == Next(ws[i - 1], steps[i - 1]);
      StepKeeps(ws[i - 1], steps[i - 1], t);
    }
  }

  /** Under every interleaving of calls and callbacks both indexes are exactly the filters of the names. */
  lemma IndexesAreExact(start: Net, ws: seq<Net>, steps: seq<Step>, i: nat)
    requires Run(start, ws, steps) && i <= |steps| && Deployed(start.reg) && start.flights == []
    ensures Indexed(ws[i].reg.names)
  {
    RunKeeps(start, ws, steps, i, "");
  }

  /** The counter of a top-level account that was never open equals the number of its names. */
  lemma BusinessCountsAreExact(start: Net, ws: seq<Net>, steps: seq<Step>, i: nat, t: AccountId)
    requires Run(start, ws, steps) && i <= |steps| && Deployed(start.reg) && start.flights == []
    requires forall j :: 0 <= j < i ==> NotOpen(ws[j].reg, t)
    ensures Count(ws[i].reg, t) == |Bucket(ws[i].reg.names.byTla, t)|
  {
    RunKeeps(start, ws, steps, i, t);
  }
}
