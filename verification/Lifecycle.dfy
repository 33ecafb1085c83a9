/** When a name is active, in grace or reclaimable, and how pauses push reclaiming back. */
module Lifecycle {
  import opened Common
  import opened RegistryTypes

  datatype Clock = Clock(grace: nat, reclaimFloor: nat)

  predicate EffectivePaused(p: PauseBook, now: nat) {
    p.paused && now < p.pausedUntil
  }

  /** No name is reclaimable before this instant; the 64-bit maximum stands for never. */
  function ReclaimFloor(p: PauseBook, grace: nat, now: nat): nat {
    if EffectivePaused(p, now) then MAX_U64
    else SatAdd(if p.paused then p.pausedUntil else p.unpausedAt, grace)
  }

  function ClockAt(p: PauseBook, grace: nat, now: nat): Clock {
    Clock(grace, ReclaimFloor(p, grace, now))
  }

  function ReclaimableAt(c: Clock, from: nat): nat {
    Max(SatAdd(from, c.grace), c.reclaimFloor)
  }

  function TimeLifecycle(expiresAt: nat, c: Clock, now: nat): Status {
    if now < expiresAt then Status.Active
    else if now < ReclaimableAt(c, expiresAt) then Grace
    else Reclaimable
  }

  function TlaLifecycle(t: Tla, c: Clock, suspendedUntil: nat, now: nat): Status {
    match t.status
    case TlaRegistered => Registered
    case TlaSuspended => if now < suspendedUntil then Status.Suspended else TimeLifecycle(t.expiresAt, c, now)
    case TlaActive => TimeLifecycle(t.expiresAt, c, now)
  }

  predicate AcceptingRentals(t: Tla, suspendedUntil: nat, now: nat) {
    && now < t.expiresAt
    && (t.status.TlaActive? || (t.status.TlaSuspended? && now >= suspendedUntil))
  }

  function SubLifecycle(sub: Sub, t: Tla, notice: nat, c: Clock, suspendedUntil: nat, now: nat): Status {
    if TlaLifecycle(t, c, suspendedUntil, now).Reclaimable? then Reclaimable
    else if sub.retractionAt.Some? && now >= Max(SatAdd(sub.retractionAt.value, notice), c.reclaimFloor) then Reclaimable
    else TimeLifecycle(sub.expiresAt, c, now)
  }

  /** The time-dependent conditions under which a renewal is accepted. */
  predicate Renewable(sub: Sub, t: Tla, c: Clock, suspendedUntil: nat, now: nat) {
    && now < SatAdd(sub.expiresAt, c.grace)
    && sub.retractionAt.None?
    && !TlaLifecycle(t, c, suspendedUntil, now).Reclaimable?
  }

  // ---------------------------------------------------------------- pauses over a run

  datatype Switch = Pause | Unpause

  /** A call at an instant; only an admin's is accepted. */
  datatype Step = Step(switch: Switch, byAdmin: bool, now: nat)

  function Paused(p: PauseBook, now: nat): PauseBook {
    p.(paused := true, pausedUntil := SatAdd(now, MAX_AUTHORITY_HOLD_NS))
  }

  function Unpaused(now: nat): PauseBook {
    PauseBook(false, 0, now)
  }

  function Next(p: PauseBook, t: Step): PauseBook {
    if !t.byAdmin then p
    else match t.switch
      case Pause => Paused(p, t.now)
      case Unpause => Unpaused(t.now)
  }

  /** A run of pauses and unpauses from deployment, at times that never fall. */
  ghost predicate Run(ps: seq<PauseBook>, steps: seq<Step>) {
    && |ps| == |steps| + 1 && ps[0] == PauseBook(false, 0, 0)
    && (forall i :: 0 <= i < |steps| ==> ps[i + 1] == Next(ps[i], steps[i]))
    && (forall i, j :: 0 <= i <= j < |steps| ==> steps[i].now <= steps[j].now)
  }

  /** State `i` is the one in force at `now`. */
  ghost predicate InForce(steps: seq<Step>, i: nat, now: nat) {
    && i <= |steps| && now < MAX_U64
    && (i > 0 ==> steps[i - 1].now <= now)
    && (i < |steps| ==> now <= steps[i].now)
  }

  /** Whatever instant was effectively paused, every later floor lies a grace period beyond it. */
  lemma {:induction false} FloorFollowsPauses(ps: seq<PauseBook>, steps: seq<Step>, i: nat, k: nat, p: nat, q: nat)
    requires Run(ps, steps) && i <= k && InForce(steps, i, p) && InForce(steps, k, q) && p <= q
    requires EffectivePaused(ps[i], p)
    ensures EffectivePaused(ps[k], q) || (if ps[k].paused then ps[k].pausedUntil else ps[k].unpausedAt) >= p
    decreases k
  {
    if i < k {
      var t := steps[k - 1];
      assert ps[k - 1 + 1] == Next(ps[k - 1], t);
      assert steps[i].now <= t.now;
      var b := t.now;
      assert InForce(steps, k - 1, b) by {
        if k - 1 > 0 {
          assert steps[k - 2].now <= steps[k - 1].now;
        }
      }
      FloorFollowsPauses(ps, steps, i, k - 1, p, b);
    }
  }

  /** Until an admin lifts it, a pause lasts seven days from the last admin's pause at least. */
  lemma {:induction false} PauseStands(ps: seq<PauseBook>, steps: seq<Step>, j: nat, i: nat)
    requires Run(ps, steps) && j < i <= |steps| && steps[j].switch.Pause? && steps[j].byAdmin
    requires forall k :: j < k < i ==> !(steps[k].switch.Unpause? && steps[k].byAdmin)
    ensures ps[i].paused && ps[i].pausedUntil >= SatAdd(steps[j].now, MAX_AUTHORITY_HOLD_NS)
    decreases i
  {
    assert ps[i - 1 + 1] == Next(ps[i - 1], steps[i - 1]);
    if j + 1 < i {
      PauseStands(ps, steps, j, i - 1);
      assert steps[j].now <= steps[i - 1].now;
    }
  }

  /** No name can be reclaimed sooner than one grace period after any instant at which the registry was paused. */
  lemma {:induction false} GraceAfterPause(ps: seq<PauseBook>, steps: seq<Step>, i: nat, k: nat, p: nat, q: nat,
                        grace: nat, sub: Sub, tla: Tla, notice: nat, suspendedUntil: nat)
    requires Run(ps, steps) && i <= k && InForce(steps, i, p) && InForce(steps, k, q) && p <= q
    requires EffectivePaused(ps[i], p)
    requires SubLifecycle(sub, tla, notice, ClockAt(ps[k], grace, q), suspendedUntil, q).Reclaimable?
    ensures q >= p + grace
  {
    FloorFollowsPauses(ps, steps, i, k, p, q);
    FloorHolds(sub, tla, notice, ClockAt(ps[k], grace, q), suspendedUntil, q);
  }

  /** Every road to reclaiming, the top-level account's included, passes the floor. */
  lemma FloorHolds(sub: Sub, tla: Tla, notice: nat, c: Clock, suspendedUntil: nat, now: nat)
    requires SubLifecycle(sub, tla, notice, c, suspendedUntil, now).Reclaimable?
    ensures now >= c.reclaimFloor
  {
  }

  /** A name is never renewable and reclaimable at once. */
  lemma NeverBoth(sub: Sub, tla: Tla, notice: nat, c: Clock, suspendedUntil: nat, now: nat)
    ensures !(Renewable(sub, tla, c, suspendedUntil, now)
              && SubLifecycle(sub, tla, notice, c, suspendedUntil, now).Reclaimable?)
  {
  }
}
