/** Paid orders in every run: each settles at most once, and mint counters account for every one of them. */
module OrderRuns {
  import opened Common
  import opened RegistryTypes
  import opened NameTable
  import opened RegistryModel
  import opened IndexRuns

  /** The only ways a step changes the order book. */
  datatype Event =
    | Idle
    | Reserved(id: string, key: Key, tla: AccountId, payer: AccountId, now: nat)
    | Released(id: string, grant: Grant)
    | Confirmed(id: string)
    | Bound(grant: Grant, max: nat)
    | Unbound(grant: Grant)

  function Logged(o: Orders, e: Event): Orders {
    match e
    case Idle => o
    case Reserved(id, key, tla, payer, now) => Reserve(o, id, key, tla, payer, now)
    case Released(id, grant) => GiveBack(o.(orders := o.orders - {id}), grant)
    case Confirmed(id) => o.(orders := o.orders[id := Settled])
    case Bound(grant, max) => o.(allowance := o.allowance[grant := max])
    case Unbound(grant) => o.(allowance := o.allowance - {grant}, used := o.used - {grant})
  }

  predicate Holds(o: Orders, id: string, g: Grant) {
    id in o.orders && o.orders[id].InFlight? && (o.orders[id].payer, o.orders[id].tla) == g
  }

  function GrantOf(o: Orders, id: string): Grant
    requires id in o.orders && o.orders[id].InFlight?
  {
    (o.orders[id].payer, o.orders[id].tla)
  }

  /** When each change may happen. */
  predicate Admissible(o: Orders, e: Event) {
    match e
    case Reserved(id, key, tla, payer, _) =>
      && id !in o.orders && Keyed(key, tla)
      && (payer, tla) in o.allowance && (o.allowance[(payer, tla)] != 0 ==> Used(o, (payer, tla)) < o.allowance[(payer, tla)])
    case Released(id, grant) => Holds(o, id, grant)
    case Confirmed(id) => id in o.orders && o.orders[id].InFlight?
    case Bound(_, max) => max != 0
    case _ => true
  }

  /** Every order in flight names a name of its own top-level account; no allowance is zero. */
  ghost predicate Filed(o: Orders) {
    && (forall id :: id in o.orders && o.orders[id].InFlight? ==> Keyed(o.orders[id].fullName, o.orders[id].tla))
    && (forall g :: g in o.allowance ==> o.allowance[g] != 0)
  }

  lemma LoggedFiles(o: Orders, e: Event)
    requires Filed(o) && Admissible(o, e)
    ensures Filed(Logged(o, e))
  {
  }

  function CallEvent(s: Registry, x: Ctx, call: Call): Event {
    match call
    case RentPaid(tla, name, _, _, id) => Reserved(id, KeyOf(tla, name), tla, x.caller, x.now)
    case Bind(authority, tla, maxMints) => Bound((authority, tla), maxMints)
    case Unbind(authority, tla) => Unbound((authority, tla))
    case ReleaseOrder(id) =>
      if id in s.ord.orders && s.ord.orders[id].InFlight? then Released(id, GrantOf(s.ord, id)) else Idle
    case _ => Idle
  }

  /** Calls that never touch the order book. */
  lemma LeaveOrders(s: Registry, x: Ctx, call: Call)
    requires Apply(s, x, call).Some?
    requires call.Rent? || call.ClaimName? || call.Retract? || call.Reclaim? || Asks(call)
    ensures Apply(s, x, call).value.state.ord == s.ord
  {
    if Asks(call) {
      AskingCalls(s, x, call);
    }
  }

  lemma CallLogs(s: Registry, x: Ctx, call: Call)
    requires Apply(s, x, call).Some?
    ensures Apply(s, x, call).value.state.ord == Logged(s.ord, CallEvent(s, x, call))
    ensures Admissible(s.ord, CallEvent(s, x, call))
  {
    if call.RentPaid? {
      KeyedOf(call.tla, call.name);
    } else if call.Rent? || call.ClaimName? || call.Retract? || call.Reclaim? || Asks(call) {
      LeaveOrders(s, x, call);
    }
  }

  /** The order a settled mint or re-rent still finds its own. */
  predicate Finds(s: Registry, f: Flight) {
    && (f.MintFlight? || f.ReRentFlight?) && f.m.orderId.Some?
    && InFlightFor(s.ord, f.m.orderId.value, KeyOf(f.m.tla, f.m.name), f.m.payer)
  }

  function SettleEvent(s: Registry, f: Flight, outcome: Outcome): Event {
    if !Finds(s, f) then Idle
    else if outcome.Succeeded? then Confirmed(f.m.orderId.value)
    else Released(f.m.orderId.value, (f.m.payer, f.m.tla))
  }

  lemma SettleLogs(s: Registry, now: nat, f: Flight, outcome: Outcome)
    requires Settle(s, now, f, outcome).Some? && Filed(s.ord) && Named(f)
    ensures Settle(s, now, f, outcome).value.state.ord == Logged(s.ord, SettleEvent(s, f, outcome))
    ensures Admissible(s.ord, SettleEvent(s, f, outcome))
  {
    SettleLogged(s, now, f, outcome);
    if Finds(s, f) {
      var order := s.ord.orders[f.m.orderId.value];
      SameTla(order.fullName, order.tla, f.m.tla, f.m.name);
    }
  }

  lemma SettleLogged(s: Registry, now: nat, f: Flight, outcome: Outcome)
    requires Settle(s, now, f, outcome).Some?
    ensures Settle(s, now, f, outcome).value.state.ord == Logged(s.ord, SettleEvent(s, f, outcome))
  {
    if f.MintFlight? || f.ReRentFlight? {
      MintOrders(s, now, f, outcome);
    } else {
      OrdersRest(s, now, f, outcome);
    }
  }

  lemma SettlementsLeaveOrders(s: Registry, m: Settlement, now: nat)
    ensures SettleFailed(s, m).ord == s.ord && SettleStranded(s, m, now).ord == s.ord
  {
  }

  lemma MintOrders(s: Registry, now: nat, f: Flight, outcome: Outcome)
    requires Settle(s, now, f, outcome).Some? && (f.MintFlight? || f.ReRentFlight?)
    ensures Settle(s, now, f, outcome).value.state.ord
            == if outcome.Succeeded? then WithConfirm(s, f.m).ord else WithRelease(s, f.m).ord
  {
    var s1 := if f.MintFlight? && f.kind.BusinessClaim? && outcome.CreationFailed?
      then s.(whitelist := s.whitelist + {(f.m.tla, f.m.owner)}) else s;
    SettlementsLeaveOrders(WithRelease(s1, f.m), f.m, now);
  }

  lemma OrdersRest(s: Registry, now: nat, f: Flight, outcome: Outcome)
    requires Settle(s, now, f, outcome).Some? && !f.MintFlight? && !f.ReRentFlight?
    ensures Settle(s, now, f, outcome).value.state.ord == s.ord
  {
  }

  lemma SameTla(key: Key, tla: AccountId, tla': AccountId, name: string)
    requires Keyed(key, tla) && ValidName(name) && key == KeyOf(tla', name)
    ensures tla == tla'
  {
    KeysAreDistinct(tla, key[..|key| - |tla| - 1], tla', name);
  }

  /** The change a step makes to the order book. */
  function StepEvent(w: Net, t: Step): Event {
    match t
    case Request(x, call) => if Apply(w.reg, x, call).Some? then CallEvent(w.reg, x, call) else Idle
    case Deliver(now, k, outcome) =>
      if k < |w.flights| && Settle(w.reg, now, w.flights[k], outcome).Some? then SettleEvent(w.reg, w.flights[k], outcome) else Idle
  }

  lemma StepLogs(w: Net, t: Step)
    requires Filed(w.reg.ord) && AllNamed(w.flights)
    ensures Next(w, t).reg.ord == Logged(w.reg.ord, StepEvent(w, t))
    ensures Admissible(w.reg.ord, StepEvent(w, t)) && Filed(Next(w, t).reg.ord)
  {
    match t
    case Request(x, call) =>
      if Apply(w.reg, x, call).Some? {
        CallLogs(w.reg, x, call);
      }
    case Deliver(now, k, outcome) =>
      if k < |w.flights| && Settle(w.reg, now, w.flights[k], outcome).Some? {
        SettleLogs(w.reg, now, w.flights[k], outcome);
      }
    LoggedFiles(w.reg.ord, StepEvent(w, t));
  }

  lemma {:induction false} RunFiles(start: Net, ws: seq<Net>, steps: seq<Step>, i: nat)
    requires Run(start, ws, steps) && i <= |steps| && Deployed(start.reg) && start.flights == []
    ensures Filed(ws[i].reg.ord) && AllNamed(ws[i].flights)
    ensures i > 0 ==> ws[i].reg.ord == Logged(ws[i - 1].reg.ord, StepEvent(ws[i - 1], steps[i - 1]))
                      && Admissible(ws[i - 1].reg.ord, StepEvent(ws[i - 1], steps[i - 1]))
  {
    RunKeeps(start, ws, steps, i, "");
    if i > 0 {
      RunFiles(start, ws, steps, i - 1);
      assert ws[i - 1 + 1] == Next(ws[i - 1], steps[i - 1]);
      StepLogs(ws[i - 1], steps[i - 1]);
    }
  }

  // ---------------------------------------------------------------- settled once

  predicate IsSettled(o: Orders, id: string) {
    id in o.orders && o.orders[id].Settled?
  }

  predicate BecomesSettled(ws: seq<Net>, i: nat, id: string)
    requires i + 1 < |ws|
  {
    !IsSettled(ws[i].reg.ord, id) && IsSettled(ws[i + 1].reg.ord, id)
  }

  lemma {:induction false} SettledForGood(start: Net, ws: seq<Net>, steps: seq<Step>, i: nat, j: nat, id: string)
    requires Run(start, ws, steps) && i <= j <= |steps| && Deployed(start.reg) && start.flights == []
    requires IsSettled(ws[i].reg.ord, id)
    ensures IsSettled(ws[j].reg.ord, id)
    decreases j
  {
    if i < j {
      SettledForGood(start, ws, steps, i, j - 1, id);
      RunFiles(start, ws, steps, j);
    }
  }

  /** No order is settled twice in any run. */
  lemma OrdersSettleOnce(start: Net, ws: seq<Net>, steps: seq<Step>, i: nat, j: nat, id: string)
    requires Run(start, ws, steps) && i < |steps| && j < |steps| && Deployed(start.reg) && start.flights == []
    requires BecomesSettled(ws, i, id) && BecomesSettled(ws, j, id)
    ensures i == j
  {
    if i < j {
      SettledForGood(start, ws, steps, i + 1, j, id);
    } else if j < i {
      SettledForGood(start, ws, steps, j + 1, i, id);
    }
  }

  // ---------------------------------------------------------------- the mint counters

  ghost function Live(o: Orders, g: Grant): set<string> {
    set id | id in o.orders && Holds(o, id, g)
  }

  ghost function JustSettled(o: Orders, o': Orders, g: Grant): set<string> {
    set id | id in o.orders && Holds(o, id, g) && IsSettled(o', id)
  }

  /** How many orders of a grant were settled in the first `i` steps. */
  ghost function SettledBy(ws: seq<Net>, i: nat, g: Grant): nat
    requires i < |ws|
  {
    if i == 0 then 0 else SettledBy(ws, i - 1, g) + |JustSettled(ws[i - 1].reg.ord, ws[i].reg.ord, g)|
  }

  /** The step takes the grant away. */
  predicate Unbinds(w: Net, t: Step, g: Grant) {
    t.Request? && t.call == Unbind(g.0, g.1) && Apply(w.reg, t.x, t.call).Some?
  }

  lemma LoggedLive(o: Orders, e: Event, g: Grant)
    requires Admissible(o, e)
    ensures Live(Logged(o, e), g)
            == match e
               case Reserved(id, _, tla, payer, _) => if (payer, tla) == g then Live(o, g) + {id} else Live(o, g)
               case Released(id, _) => Live(o, g) - {id}
               case Confirmed(id) => Live(o, g) - {id}
               case _ => Live(o, g)
  {
  }

  lemma LoggedSettled(o: Orders, e: Event, g: Grant)
    requires Admissible(o, e)
    ensures JustSettled(o, Logged(o, e), g) == if e.Confirmed? && Holds(o, e.id, g) then {e.id} else {}
  {
  }

  lemma ReservedUsed(o: Orders, e: Event, g: Grant)
    requires Admissible(o, e) && e.Reserved?
    ensures Used(Logged(o, e), g) - |Live(Logged(o, e), g)| == Used(o, g) - |Live(o, g)|
  {
    LoggedLive(o, e, g);
    assert e.id !in Live(o, g);
  }

  lemma ReleasedUsed(o: Orders, e: Event, g: Grant)
    requires Admissible(o, e) && e.Released? && Used(o, g) >= |Live(o, g)|
    ensures Used(Logged(o, e), g) - |Live(Logged(o, e), g)| == Used(o, g) - |Live(o, g)|
  {
    LoggedLive(o, e, g);
    assert e.id in Live(o, g) <==> e.grant == g;
  }

  lemma ConfirmedUsed(o: Orders, e: Event, g: Grant)
    requires Admissible(o, e) && e.Confirmed?
    ensures Used(Logged(o, e), g) == Used(o, g)
    ensures |Live(Logged(o, e), g)| + |JustSettled(o, Logged(o, e), g)| == |Live(o, g)|
  {
    LoggedLive(o, e, g);
    LoggedSettled(o, e, g);
    assert e.id in Live(o, g) <==> Holds(o, e.id, g);
  }

  lemma LoggedUsed(o: Orders, e: Event, g: Grant, settled: nat)
    requires Admissible(o, e) && e != Unbound(g) && Used(o, g) == |Live(o, g)| + settled
    ensures Used(Logged(o, e), g) == |Live(Logged(o, e), g)| + settled + |JustSettled(o, Logged(o, e), g)|
  {
    LoggedSettled(o, e, g);
    match e
    case Reserved(_, _, _, _, _) => ReservedUsed(o, e, g);
    case Released(_, _) => ReleasedUsed(o, e, g);
    case Confirmed(_) => ConfirmedUsed(o, e, g);
    case _ => LoggedLive(o, e, g);
  }

  /** While a payment authority stays bound, its counter is its orders in flight plus those settled. */
  lemma {:induction false} CountersAccountForOrders(start: Net, ws: seq<Net>, steps: seq<Step>, i: nat, g: Grant)
    requires Run(start, ws, steps) && i <= |steps| && Deployed(start.reg) && start.flights == []
    requires forall j :: 0 <= j < i ==> !Unbinds(ws[j], steps[j], g)
    ensures Used(ws[i].reg.ord, g) == |Live(ws[i].reg.ord, g)| + SettledBy(ws, i, g)
  {
    if i > 0 {
      CountersAccountForOrders(start, ws, steps, i - 1, g);
      RunFiles(start, ws, steps, i);
      var o, e := ws[i - 1].reg.ord, StepEvent(ws[i - 1], steps[i - 1]);
      LoggedUsed(o, e, g, SettledBy(ws, i - 1, g));
    } else {
      assert Live(ws[0].reg.ord, g) == {};
    }
  }

  /** The largest allowance a grant has had so far. */
  ghost function Peak(ws: seq<Net>, i: nat, g: Grant): nat
    requires i < |ws|
  {
    var now := if g in ws[i].reg.ord.allowance then ws[i].reg.ord.allowance[g] else 0;
    if i == 0 then now else Max(Peak(ws, i - 1, g), now)
  }

  /** Bound or not, no authority has more mints counted than the largest allowance it was ever given. */
  lemma {:induction false} CountersStayWithinAllowance(start: Net, ws: seq<Net>, steps: seq<Step>, i: nat, g: Grant)
    requires Run(start, ws, steps) && i <= |steps| && Deployed(start.reg) && start.flights == []
    ensures Used(ws[i].reg.ord, g) <= Peak(ws, i, g)
  {
    if i > 0 {
      CountersStayWithinAllowance(start, ws, steps, i - 1, g);
      RunFiles(start, ws, steps, i - 1);
      RunFiles(start, ws, steps, i);
      AllowanceInPeak(ws, i - 1, g);
      UsedRises(ws[i - 1].reg.ord, StepEvent(ws[i - 1], steps[i - 1]), g);
    }
  }

  lemma AllowanceInPeak(ws: seq<Net>, i: nat, g: Grant)
    requires i < |ws|
    ensures g in ws[i].reg.ord.allowance ==> ws[i].reg.ord.allowance[g] <= Peak(ws, i, g)
  {
  }

  lemma UsedRises(o: Orders, e: Event, g: Grant)
    requires Filed(o) && Admissible(o, e)
    ensures Used(Logged(o, e), g) <= Used(o, g) || (g in o.allowance && Used(Logged(o, e), g) <= o.allowance[g])
  {
  }
}
