/** What the price and the pause clock guarantee holds in every run of the whole registry. */
module RegistryClocks {
  import opened Common
  import opened RegistryTypes
  import opened NameTable
  import opened RegistryModel
  import opened IndexRuns
  import Lifecycle
  import Rates

  function TimeOf(t: Step): nat {
    match t
    case Request(x, _) => x.now
    case Deliver(now, _, _) => now
  }

  ghost predicate Timed(steps: seq<Step>) {
    && (forall i, j :: 0 <= i <= j < |steps| ==> TimeOf(steps[i]) <= TimeOf(steps[j]))
    && (forall i :: 0 <= i < |steps| ==> TimeOf(steps[i]) < MAX_U64)
  }

  // ---------------------------------------------------------------- the price

  function RateState(s: Registry): Rates.State {
    Rates.State(s.rate, s.cfg.fees)
  }

  /** What a step of the registry is to its price. */
  function RateStep(w: Net, t: Step): Rates.Step {
    if t.Deliver? || Apply(w.reg, t.x, t.call).None? then Rates.Step(Rates.Other, 0, TimeOf(t), Rates.OracleRate(0))
    else match t.call
      case InitialRate(rate) => Rates.Step(Rates.Council, 1, t.x.now, Rates.InitialRate(rate))
      case OracleRate(rate) => Rates.Step(Rates.Oracle, t.x.deposit, t.x.now, Rates.OracleRate(rate))
      case Govern(cfg, _, _) =>
        if cfg.fees == w.reg.cfg.fees then Rates.Step(Rates.Other, 0, t.x.now, Rates.OracleRate(0))
        else Rates.Step(Rates.Council, 1, t.x.now, Rates.NewFees(cfg.fees))
      case _ => Rates.Step(Rates.Other, 0, t.x.now, Rates.OracleRate(0))
  }

  /** What a step of the registry is to its pause clock. */
  function PauseStep(w: Net, t: Step): Lifecycle.Step {
    var accepted := t.Request? && Apply(w.reg, t.x, t.call).Some?;
    if accepted && t.call.Pause? then Lifecycle.Step(Lifecycle.Pause, true, TimeOf(t))
    else Lifecycle.Step(Lifecycle.Unpause, accepted && t.call.Unpause?, TimeOf(t))
  }

  predicate KeepsClocks(s: Registry, s': Registry) {
    s'.rate == s.rate && s'.pause == s.pause && s'.cfg == s.cfg
  }

  predicate SetsClocks(call: Call) {
    call.Pause? || call.Unpause? || call.InitialRate? || call.OracleRate? || call.Govern?
  }

  lemma SettlementsKeepClocks(s: Registry, m: Settlement, now: nat)
    ensures KeepsClocks(s, SettleFailed(s, m)) && KeepsClocks(s, SettleStranded(s, m, now))
  {
  }

  lemma MintKeepsClocks(s: Registry, now: nat, f: Flight, outcome: Outcome)
    requires Settle(s, now, f, outcome).Some? && (f.MintFlight? || f.ReRentGate? || f.ReRentFlight?)
    ensures KeepsClocks(s, Settle(s, now, f, outcome).value.state)
  {
    var s1 := if f.MintFlight? && f.kind.BusinessClaim? && outcome.CreationFailed?
      then s.(whitelist := s.whitelist + {(f.m.tla, f.m.owner)}) else s;
    SettlementsKeepClocks(WithRelease(s1, f.m), f.m, now);
    SettlementsKeepClocks(s, f.m, now);
  }

  lemma SettleKeepsClocks(s: Registry, now: nat, f: Flight, outcome: Outcome)
    requires Settle(s, now, f, outcome).Some?
    ensures KeepsClocks(s, Settle(s, now, f, outcome).value.state)
  {
    if f.MintFlight? || f.ReRentGate? || f.ReRentFlight? {
      MintKeepsClocks(s, now, f, outcome);
    } else if f.MoveFlight? || f.ReturnFlight? || f.RecoverFlight? {
      MoveEffect(s, now, f, outcome);
    }
  }

  lemma CallKeepsClocks(s: Registry, x: Ctx, call: Call)
    requires Apply(s, x, call).Some? && !SetsClocks(call)
    ensures KeepsClocks(s, Apply(s, x, call).value.state)
  {
    if Asks(call) {
      AskingCalls(s, x, call);
    }
  }

  lemma ClockCalls(w: Net, x: Ctx, call: Call)
    requires Apply(w.reg, x, call).Some? && SetsClocks(call)
    ensures var s' := Apply(w.reg, x, call).value.state;
            && RateState(s') == Rates.Next(RateState(w.reg), RateStep(w, Request(x, call)))
            && s'.pause == Lifecycle.Next(w.reg.pause, PauseStep(w, Request(x, call)))
            && s'.cfg.grace == w.reg.cfg.grace
  {
  }

  /** One step of the registry is one step of its price and one of its pause clock. */
  lemma StepProjects(w: Net, t: Step)
    ensures RateState(Next(w, t).reg) == Rates.Next(RateState(w.reg), RateStep(w, t))
    ensures Next(w, t).reg.pause == Lifecycle.Next(w.reg.pause, PauseStep(w, t))
    ensures Next(w, t).reg.cfg.grace == w.reg.cfg.grace
  {
    match t
    case Request(x, call) =>
      if Apply(w.reg, x, call).Some? {
        if SetsClocks(call) {
          ClockCalls(w, x, call);
        } else {
          CallKeepsClocks(w.reg, x, call);
        }
      }
    case Deliver(now, k, outcome) =>
      if k < |w.flights| && Settle(w.reg, now, w.flights[k], outcome).Some? {
        SettleKeepsClocks(w.reg, now, w.flights[k], outcome);
      }
  }

  ghost function RateStates(ws: seq<Net>): seq<Rates.State> {
    seq(|ws|, i requires 0 <= i < |ws| => RateState(ws[i].reg))
  }

  ghost function RateSteps(ws: seq<Net>, steps: seq<Step>): seq<Rates.Step>
    requires |steps| < |ws|
  {
    seq(|steps|, i requires 0 <= i < |steps| => RateStep(ws[i], steps[i]))
  }

  ghost function PauseStates(ws: seq<Net>): seq<PauseBook> {
    seq(|ws|, i requires 0 <= i < |ws| => ws[i].reg.pause)
  }

  ghost function PauseSteps(ws: seq<Net>, steps: seq<Step>): seq<Lifecycle.Step>
    requires |steps| < |ws|
  {
    seq(|steps|, i requires 0 <= i < |steps| => PauseStep(ws[i], steps[i]))
  }

  predicate ClocksReset(s: Registry) {
    RateState(s) == Rates.Init() && s.pause == PauseBook(false, 0, 0)
  }

  lemma RunsProject(start: Net, ws: seq<Net>, steps: seq<Step>)
    requires Run(start, ws, steps) && Timed(steps) && ClocksReset(start.reg)
    ensures Rates.Run(RateStates(ws), RateSteps(ws, steps))
    ensures Lifecycle.Run(PauseStates(ws), PauseSteps(ws, steps))
  {
    forall i | 0 <= i < |steps|
      ensures RateStates(ws)[i + 1] == Rates.Next(RateStates(ws)[i], RateSteps(ws, steps)[i])
      ensures PauseStates(ws)[i + 1] == Lifecycle.Next(PauseStates(ws)[i], PauseSteps(ws, steps)[i])
      ensures RateSteps(ws, steps)[i].now == TimeOf(steps[i]) == PauseSteps(ws, steps)[i].now
    {
      assert ws[i + 1] == Next(ws[i], steps[i]);
      StepProjects(ws[i], steps[i]);
    }
  }

  lemma {:induction false} GraceNeverChanges(start: Net, ws: seq<Net>, steps: seq<Step>, i: nat)
    requires Run(start, ws, steps) && i <= |steps|
    ensures ws[i].reg.cfg.grace == start.reg.cfg.grace
  {
    if i > 0 {
      GraceNeverChanges(start, ws, steps, i - 1);
      assert ws[i - 1 + 1] == Next(ws[i - 1], steps[i - 1]);
      StepProjects(ws[i - 1], steps[i - 1]);
    }
  }

  /** In every run of the registry the stored rate is unset or inside the configured band. */
  lemma RegistryRateStaysInBand(start: Net, ws: seq<Net>, steps: seq<Step>, i: nat)
    requires Run(start, ws, steps) && Timed(steps) && ClocksReset(start.reg) && i <= |steps|
    ensures ws[i].reg.rate.rate == 0 || ws[i].reg.cfg.fees.minRate <= ws[i].reg.rate.rate <= ws[i].reg.cfg.fees.maxRate
  {
    RunsProject(start, ws, steps);
    Rates.RateStaysInBand(RateStates(ws), RateSteps(ws, steps), i);
  }

  /** State `i` is the one in force at `now`. */
  ghost predicate InForce(steps: seq<Step>, i: nat, now: nat) {
    && i <= |steps| && now < MAX_U64
    && (i > 0 ==> TimeOf(steps[i - 1]) <= now)
    && (i < |steps| ==> now <= TimeOf(steps[i]))
  }

  /**
   In every run of the registry, whoever reclaims a name does so at least one grace period after
   every earlier instant at which the registry was paused.
   */
  lemma ReclaimsWaitOutPauses(start: Net, ws: seq<Net>, steps: seq<Step>, i: nat, p: nat, k: nat)
    requires Run(start, ws, steps) && Timed(steps) && ClocksReset(start.reg)
    requires i <= k < |steps| && InForce(steps, i, p) && p <= TimeOf(steps[k]) && Paused(ws[i].reg, p)
    requires steps[k].Request? && steps[k].call.Reclaim? && Apply(ws[k].reg, steps[k].x, steps[k].call).Some?
    ensures TimeOf(steps[k]) >= p + start.reg.cfg.grace
  {
    var s, q, call := ws[k].reg, TimeOf(steps[k]), steps[k].call;
    var key := KeyOf(call.tla, call.name);
    RunsProject(start, ws, steps);
    GraceNeverChanges(start, ws, steps, k);
    assert ReclaimableNow(s, call.tla, key, q);
    if k > 0 {
      assert TimeOf(steps[k - 1]) <= TimeOf(steps[k]);
    }
    assert Lifecycle.InForce(PauseSteps(ws, steps), i, p) && Lifecycle.InForce(PauseSteps(ws, steps), k, q);
    Lifecycle.GraceAfterPause(PauseStates(ws), PauseSteps(ws, steps), i, k, p, q, start.reg.cfg.grace,
                              s.names.subs[key], s.tlas[call.tla], s.cfg.fees.retractionNotice, SuspendedUntil(s, call.tla));
  }
}
