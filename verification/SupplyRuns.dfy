/** The total supply the collection reports: in every run it counts exactly the names that are not still being minted. */
module SupplyRuns {
  import opened Common
  import opened RegistryTypes
  import opened NameTable
  import opened RegistryModel
  import opened IndexRuns
  import opened MoneyRuns

  /** How many of the chains in flight mint or re-rent a name. */
  function Mints(fs: seq<Flight>): nat {
    if fs == [] then 0 else Mints(fs[..|fs| - 1]) + if Minting(fs[|fs| - 1]) then 1 else 0
  }

  ghost function MintKeys(fs: seq<Flight>): set<Key> {
    set i | 0 <= i < |fs| && Minting(fs[i]) :: MintKey(fs[i])
  }

  /** Every name being minted has its provisional entry, and only one chain minting it. */
  ghost predicate Seated(w: Net) {
    MintKeys(w.flights) <= w.reg.names.subs.Keys && MintsApart(w.flights)
  }

  lemma {:induction false} MintsWithout(fs: seq<Flight>, i: nat)
    requires i < |fs|
    ensures Mints(fs) == Mints(Without(fs, i)) + if Minting(fs[i]) then 1 else 0
  {
    var last := |fs| - 1;
    if i == last {
      assert Without(fs, i) == fs[..last];
    } else {
      MintsWithout(fs[..last], i);
      assert Without(fs, i)[..last - 1] == Without(fs[..last], i);
    }
  }

  lemma MintsLaunch(fs: seq<Flight>, f: Option<Flight>)
    ensures Mints(Launch(fs, f)) == Mints(fs) + if f.Some? && Minting(f.value) then 1 else 0
    ensures MintKeys(Launch(fs, f)) == MintKeys(fs) + if f.Some? && Minting(f.value) then {MintKey(f.value)} else {}
  {
    if f.Some? {
      var gs := fs + [f.value];
      assert gs[..|fs|] == fs;
      forall k | k in MintKeys(fs)
        ensures k in MintKeys(gs)
      {
        var i :| 0 <= i < |fs| && Minting(fs[i]) && MintKey(fs[i]) == k;
        assert gs[i] == fs[i];
      }
      if Minting(f.value) {
        assert gs[|fs|] == f.value;
      }
    }
  }

  lemma RestKeys(fs: seq<Flight>, i: nat)
    requires i < |fs| && MintsApart(fs)
    ensures MintKeys(Without(fs, i)) == if Minting(fs[i]) then MintKeys(fs) - {MintKey(fs[i])} else MintKeys(fs)
  {
    var rest := Without(fs, i);
    RestApart(fs, i);
    forall k | k in MintKeys(rest)
      ensures k in MintKeys(fs) && (Minting(fs[i]) ==> k != MintKey(fs[i]))
    {
      var j :| 0 <= j < |rest| && Minting(rest[j]) && MintKey(rest[j]) == k;
      assert rest[j] == fs[if j < i then j else j + 1] && !SameMint(rest[j], fs[i]);
    }
    forall k | k in MintKeys(fs) && !(Minting(fs[i]) && k == MintKey(fs[i]))
      ensures k in MintKeys(rest)
    {
      var j :| 0 <= j < |fs| && Minting(fs[j]) && MintKey(fs[j]) == k;
      assert rest[if j < i then j else j - 1] == fs[j];
    }
  }

  /** With one chain per name, the chains minting are as many as the names being minted. */
  lemma {:induction false} MintsAreNames(fs: seq<Flight>)
    requires MintsApart(fs)
    ensures |MintKeys(fs)| == Mints(fs)
  {
    if fs != [] {
      var last := |fs| - 1;
      assert Without(fs, last) == fs[..last];
      RestApart(fs, last);
      RestKeys(fs, last);
      MintsAreNames(fs[..last]);
      if Minting(fs[last]) {
        assert MintKey(fs[last]) in MintKeys(fs);
      }
    }
  }

  // ---------------------------------------------------------------- one step

  lemma CallSeats(w: Net, x: Ctx, call: Call)
    requires Seated(w) && Apply(w.reg, x, call).Some?
    ensures Seated(Next(w, Request(x, call)))
  {
    var done := Apply(w.reg, x, call).value;
    CallKeepsEntries(w.reg, x, call);
    MintsLaunch(w.flights, done.flight);
    if done.flight.Some? {
      NotMintedTwice(w, done.flight.value);
      LaunchStaysApart(w.flights, done.flight.value);
    }
  }

  lemma NotMintedTwice(w: Net, f: Flight)
    requires Seated(w) && (Minting(f) ==> MintKey(f) !in w.reg.names.subs)
    ensures forall i :: 0 <= i < |w.flights| ==> !SameMint(w.flights[i], f)
  {
    forall i | 0 <= i < |w.flights|
      ensures !SameMint(w.flights[i], f)
    {
      if Minting(w.flights[i]) {
        assert MintKey(w.flights[i]) in MintKeys(w.flights);
      }
    }
  }

  /** Only mints add an entry, and they add one. */
  lemma CallCounts(s: Registry, x: Ctx, call: Call)
    requires Apply(s, x, call).Some?
    ensures var done := Apply(s, x, call).value;
            && done.state.subCount == s.subCount
            && done.state.names.subs.Keys == s.names.subs.Keys + if done.flight.Some? && Minting(done.flight.value) then {MintKey(done.flight.value)} else {}
  {
    if call.Rent? || call.RentPaid? || call.ClaimName? {
      MintAdds(s, x, call);
    } else {
      OnlyMintsMint(s, x, call);
      SupplyWaits(s, x, call);
      if call.Retract? || call.Reclaim? {
        NoticeEffect(s, x, call);
      } else {
        QuietCalls(s, x, call);
      }
    }
  }

  lemma MintAdds(s: Registry, x: Ctx, call: Call)
    requires Apply(s, x, call).Some? && (call.Rent? || call.RentPaid? || call.ClaimName?)
    ensures var done := Apply(s, x, call).value;
            && done.state.subCount == s.subCount && done.flight.Some? && Minting(done.flight.value)
            && done.state.names.subs.Keys == s.names.subs.Keys + {MintKey(done.flight.value)}
  {
    var s1, kind, m, payout, reRent := MintCall(s, x, call);
  }

  lemma SupplyWaits(s: Registry, x: Ctx, call: Call)
    requires Apply(s, x, call).Some? && !(call.Rent? || call.RentPaid? || call.ClaimName?)
    ensures Apply(s, x, call).value.state.subCount == s.subCount
  {
    if Asks(call) {
      AskingCalls(s, x, call);
    }
  }

  /** What a settled chain does to the entries and the supply. */
  lemma MintCounts(s: Registry, now: nat, f: Flight, outcome: Outcome)
    requires Minting(f) && MintKey(f) in s.names.subs
    ensures Settle(s, now, f, outcome).Some?
    ensures var s' := Settle(s, now, f, outcome).value.state;
            && s'.names.subs.Keys == (if outcome.Succeeded? then s.names.subs.Keys else s.names.subs.Keys - {MintKey(f)})
            && s'.subCount == (if outcome.Succeeded? && !f.ReRentGate? then s.subCount + 1 else s.subCount)
  {
    assert Settle(s, now, f, outcome).Some?;
    MintNames(s, now, f, outcome);
  }

  lemma ReclaimCounts(s: Registry, now: nat, f: Flight, outcome: Outcome)
    requires f.ReclaimFlight?
    ensures var s', key := Settle(s, now, f, outcome).value.state, KeyOf(f.tla, f.name);
            if outcome.Succeeded? && key in s.names.subs then
              s'.names.subs.Keys == s.names.subs.Keys - {key} && s'.subCount == SatSub(s.subCount, 1)
            else s'.names.subs.Keys == s.names.subs.Keys && s'.subCount == s.subCount
  {
    ReclaimNames(s, now, f, outcome);
  }

  lemma OtherCounts(s: Registry, now: nat, f: Flight, outcome: Outcome)
    requires !Minting(f) && !f.ReclaimFlight? && Settle(s, now, f, outcome).Some?
    ensures var s' := Settle(s, now, f, outcome).value.state;
            s'.names.subs.Keys == s.names.subs.Keys && s'.subCount == s.subCount
  {
    if f.MoveFlight? || f.ReturnFlight? || f.RecoverFlight? {
      MoveEffect(s, now, f, outcome);
    } else if f.RenewFlight? || f.PayoutFlight? || f.RetractFlight? || f.RestoreFlight? {
      AmendNames(s, now, f, outcome);
    } else {
      QuietSettles(s, now, f, outcome);
    }
  }

  // ---------------------------------------------------------------- the balance

  /** Entries are the counted names and the names still being minted. */
  ghost predicate Tallied(w: Net) {
    |w.reg.names.subs.Keys| == w.reg.subCount + Mints(w.flights)
  }

  lemma RequestTallies(w: Net, x: Ctx, call: Call)
    requires Seated(w) && Tallied(w) && Apply(w.reg, x, call).Some?
    ensures Tallied(Next(w, Request(x, call)))
  {
    var done := Apply(w.reg, x, call).value;
    CallCounts(w.reg, x, call);
    CallKeepsEntries(w.reg, x, call);
    MintsLaunch(w.flights, done.flight);
  }

  /** After the chain at `k` is settled: the keys left, the supply, and the chain it turned into. */
  lemma DeliverSeats(w: Net, now: nat, k: nat, outcome: Outcome)
    requires Seated(w) && k < |w.flights| && Considerate(w, Deliver(now, k, outcome))
    ensures Seated(Next(w, Deliver(now, k, outcome)))
  {
    var f, rest := w.flights[k], Without(w.flights, k);
    RestApart(w.flights, k);
    RestKeys(w.flights, k);
    var done := Settle(w.reg, now, f, outcome);
    if done.Some? {
      SettleLaunchesMint(w.reg, now, f, outcome);
      MintsLaunch(rest, done.value.flight);
      if done.value.flight.Some? {
        LaunchStaysApart(rest, done.value.flight.value);
      }
      if Minting(f) {
        assert MintKey(f) in MintKeys(w.flights);
        MintCounts(w.reg, now, f, outcome);
      } else if f.ReclaimFlight? {
        ReclaimCounts(w.reg, now, f, outcome);
        if outcome.Succeeded? {
          ReclaimSpares(w, now, k, outcome);
        }
      } else {
        OtherCounts(w.reg, now, f, outcome);
      }
    }
  }

  lemma ReclaimSpares(w: Net, now: nat, k: nat, outcome: Outcome)
    requires k < |w.flights| && w.flights[k].ReclaimFlight? && Considerate(w, Deliver(now, k, outcome)) && outcome.Succeeded?
    ensures KeyOf(w.flights[k].tla, w.flights[k].name) !in MintKeys(w.flights)
  {
    var key := KeyOf(w.flights[k].tla, w.flights[k].name);
    forall i | 0 <= i < |w.flights| && Minting(w.flights[i])
      ensures MintKey(w.flights[i]) != key
    {
      assert !MintsName(w.flights[i], key);
    }
  }

  lemma ReclaimTallies(w: Net, now: nat, k: nat, outcome: Outcome)
    requires Seated(w) && Tallied(w) && k < |w.flights| && w.flights[k].ReclaimFlight? && Considerate(w, Deliver(now, k, outcome))
    ensures Tallied(Next(w, Deliver(now, k, outcome)))
  {
    var f := w.flights[k];
    var key := KeyOf(f.tla, f.name);
    MintsWithout(w.flights, k);
    MintsAreNames(w.flights);
    ReclaimCounts(w.reg, now, f, outcome);
    if outcome.Succeeded? && key in w.reg.names.subs {
      ReclaimSpares(w, now, k, outcome);
      SubsetCardinality(MintKeys(w.flights), w.reg.names.subs.Keys - {key});
    }
  }

  lemma MintTallies(w: Net, now: nat, k: nat, outcome: Outcome)
    requires Seated(w) && Tallied(w) && k < |w.flights| && Minting(w.flights[k])
    ensures Tallied(Next(w, Deliver(now, k, outcome)))
  {
    var f := w.flights[k];
    assert MintKey(f) in MintKeys(w.flights);
    MintsWithout(w.flights, k);
    MintCounts(w.reg, now, f, outcome);
    MintGoesOn(w.reg, now, f, outcome);
    MintsLaunch(Without(w.flights, k), Settle(w.reg, now, f, outcome).value.flight);
  }

  lemma DeliverTallies(w: Net, now: nat, k: nat, outcome: Outcome)
    requires Seated(w) && Tallied(w) && k < |w.flights| && Considerate(w, Deliver(now, k, outcome))
    ensures Tallied(Next(w, Deliver(now, k, outcome)))
  {
    var f, rest := w.flights[k], Without(w.flights, k);
    var done := Settle(w.reg, now, f, outcome);
    MintsWithout(w.flights, k);
    if f.ReclaimFlight? {
      ReclaimTallies(w, now, k, outcome);
    } else if Minting(f) {
      MintTallies(w, now, k, outcome);
    } else if done.Some? {
      OtherCounts(w.reg, now, f, outcome);
      SettleLaunchesMint(w.reg, now, f, outcome);
      MintsLaunch(rest, done.value.flight);
    }
  }

  lemma MintGoesOn(s: Registry, now: nat, f: Flight, outcome: Outcome)
    requires Minting(f) && Settle(s, now, f, outcome).Some?
    ensures var g := Settle(s, now, f, outcome).value.flight;
            (g.Some? && Minting(g.value)) <==> f.ReRentGate? && outcome.Succeeded?
  {
  }

  /**
   As long as no name is reclaimed while it is being minted, the reported supply is the number of
   entries less the names whose mint or re-rent is still in flight: it counts each settled name once.
   */
  lemma {:induction false} SupplyCountsSettledNames(start: Net, ws: seq<Net>, steps: seq<Step>, i: nat)
    requires Run(start, ws, steps) && i <= |steps| && Deployed(start.reg) && start.reg.subCount == 0 && start.flights == []
    requires forall j :: 0 <= j < i ==> Considerate(ws[j], steps[j])
    ensures MintKeys(ws[i].flights) <= ws[i].reg.names.subs.Keys
    ensures ws[i].reg.subCount == |ws[i].reg.names.subs.Keys - MintKeys(ws[i].flights)|
    ensures Seated(ws[i]) && Tallied(ws[i])
  {
    if i > 0 {
      SupplyCountsSettledNames(start, ws, steps, i - 1);
      var w, t := ws[i - 1], steps[i - 1];
      assert ws[i - 1 + 1] == Next(w, t);
      match t
      case Request(x, call) =>
        if Apply(w.reg, x, call).Some? {
          CallSeats(w, x, call);
          RequestTallies(w, x, call);
        }
      case Deliver(now, k, outcome) =>
        if k < |w.flights| {
          DeliverSeats(w, now, k, outcome);
          DeliverTallies(w, now, k, outcome);
        }
    }
    MintsAreNames(ws[i].flights);
  }

  // ---------------------------------------------------------------- parked names

  predicate ReRents(f: Flight, key: Key) {
    (f.ReRentGate? || f.ReRentFlight?) && MintKey(f) == key
  }

  ghost predicate BeingReRented(fs: seq<Flight>, key: Key) {
    exists i :: 0 <= i < |fs| && ReRents(fs[i], key)
  }

  /** A name both parked and entered is on its way to a new tenant. */
  ghost predicate ParkedFree(w: Net) {
    forall key :: key in w.reg.parked && key in w.reg.names.subs ==> BeingReRented(w.flights, key)
  }

  lemma MintCallParks(s: Registry, x: Ctx, call: Call, key: Key)
    requires Apply(s, x, call).Some? && (call.Rent? || call.RentPaid? || call.ClaimName?)
    ensures var done := Apply(s, x, call).value;
            key in done.state.parked && key in done.state.names.subs ==>
              (key in s.parked && key in s.names.subs) || (done.flight.Some? && ReRents(done.flight.value, key))
  {
    var s1, kind, m, payout, reRent := MintCall(s, x, call);
  }

  lemma CallParks(s: Registry, x: Ctx, call: Call, key: Key)
    requires Apply(s, x, call).Some?
    ensures var done := Apply(s, x, call).value;
            key in done.state.parked && key in done.state.names.subs ==>
              (key in s.parked && key in s.names.subs) || (done.flight.Some? && ReRents(done.flight.value, key))
  {
    if call.Rent? || call.RentPaid? || call.ClaimName? {
      MintCallParks(s, x, call, key);
    } else if Asks(call) {
      AskingCalls(s, x, call);
    } else if call.Retract? || call.Reclaim? {
      NoticeEffect(s, x, call);
    } else {
      QuietCalls(s, x, call);
    }
  }

  /** A settled chain leaves a parked entry only where there was one, and a settled re-rent leaves none. */
  lemma SettleParks(s: Registry, now: nat, f: Flight, outcome: Outcome, key: Key)
    requires Settle(s, now, f, outcome).Some?
    ensures var done := Settle(s, now, f, outcome).value;
            key in done.state.parked && key in done.state.names.subs ==>
              && key in s.parked && key in s.names.subs
              && (ReRents(f, key) ==> done.flight.Some? && ReRents(done.flight.value, key))
  {
    if Minting(f) {
      MintParks(s, now, f, outcome, key);
    } else if f.ReclaimFlight? {
      ReclaimNames(s, now, f, outcome);
    } else if f.MoveFlight? || f.ReturnFlight? || f.RecoverFlight? {
      MoveEffect(s, now, f, outcome);
    } else if f.RenewFlight? || f.PayoutFlight? || f.RetractFlight? || f.RestoreFlight? {
      AmendNames(s, now, f, outcome);
    } else {
      QuietSettles(s, now, f, outcome);
    }
  }

  lemma MintParks(s: Registry, now: nat, f: Flight, outcome: Outcome, key: Key)
    requires Minting(f) && Settle(s, now, f, outcome).Some?
    ensures var done := Settle(s, now, f, outcome).value;
            key in done.state.parked && key in done.state.names.subs ==>
              && key in s.parked && key in s.names.subs
              && (ReRents(f, key) ==> done.flight.Some? && ReRents(done.flight.value, key))
  {
    MintNames(s, now, f, outcome);
  }

  lemma StillReRented(fs: seq<Flight>, f: Option<Flight>, key: Key)
    ensures BeingReRented(fs, key) || (f.Some? && ReRents(f.value, key)) ==> BeingReRented(Launch(fs, f), key)
  {
    if BeingReRented(fs, key) {
      var i :| 0 <= i < |fs| && ReRents(fs[i], key);
      assert ReRents(Launch(fs, f)[i], key);
    } else if f.Some? && ReRents(f.value, key) {
      assert ReRents(Launch(fs, f)[|fs|], key);
    }
  }

  lemma RestReRented(fs: seq<Flight>, k: nat, key: Key)
    requires k < |fs| && BeingReRented(fs, key) && !ReRents(fs[k], key)
    ensures BeingReRented(Without(fs, k), key)
  {
    var i :| 0 <= i < |fs| && ReRents(fs[i], key);
    assert ReRents(Without(fs, k)[if i < k then i else i - 1], key);
  }

  lemma StepParks(w: Net, t: Step, key: Key)
    requires ParkedFree(w) && key in Next(w, t).reg.parked && key in Next(w, t).reg.names.subs
    ensures (t.Deliver? && t.which < |w.flights| && Settle(w.reg, t.now, w.flights[t.which], t.outcome).None?
             && ReRents(w.flights[t.which], key))
            || BeingReRented(Next(w, t).flights, key)
  {
    match t
    case Request(x, call) =>
      if Apply(w.reg, x, call).Some? {
        CallParks(w.reg, x, call, key);
        StillReRented(w.flights, Apply(w.reg, x, call).value.flight, key);
      }
    case Deliver(now, k, outcome) =>
      if k < |w.flights| {
        var f, done := w.flights[k], Settle(w.reg, now, w.flights[k], outcome);
        if done.Some? {
          SettleParks(w.reg, now, f, outcome, key);
          if !ReRents(f, key) {
            RestReRented(w.flights, k, key);
          }
          StillReRented(Without(w.flights, k), done.value.flight, key);
        } else if !ReRents(f, key) {
          RestReRented(w.flights, k, key);
        }
      }
  }

  /** In every such run no settled name is parked: a parked name with an entry is being re-rented right now. */
  lemma {:induction false} ParkedNamesAreFree(start: Net, ws: seq<Net>, steps: seq<Step>, i: nat)
    requires Run(start, ws, steps) && i <= |steps| && Deployed(start.reg) && start.reg.subCount == 0 && start.flights == []
    requires forall j :: 0 <= j < i ==> Considerate(ws[j], steps[j])
    ensures ParkedFree(ws[i])
  {
    if i > 0 {
      ParkedNamesAreFree(start, ws, steps, i - 1);
      SupplyCountsSettledNames(start, ws, steps, i - 1);
      var w, t := ws[i - 1], steps[i - 1];
      assert ws[i - 1 + 1] == Next(w, t);
      forall key | key in ws[i].reg.parked && key in ws[i].reg.names.subs
        ensures BeingReRented(ws[i].flights, key)
      {
        StepParks(w, t, key);
        if t.Deliver? && t.which < |w.flights| && Minting(w.flights[t.which]) {
          assert MintKey(w.flights[t.which]) in MintKeys(w.flights);
          MintCounts(w.reg, t.now, w.flights[t.which], t.outcome);
        }
      }
    }
  }
}
