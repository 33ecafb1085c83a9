/** The records the registry (`tla-registry`) keeps about top-level accounts, names and fees. */
module RegistryTypes {
  import opened Common

  datatype TlaType = Business | Open

  datatype TlaStatus = TlaRegistered | TlaActive | TlaSuspended

  datatype Premium = Legendary | Premium | Standard | Community

  datatype Tla = Tla(
    kind: TlaType,
    status: TlaStatus,
    licensee: Option<AccountId>,
    premium: Premium,
    activatedAt: nat,
    expiresAt: nat)

  datatype Sub = Sub(
    owner: AccountId,
    tla: AccountId,
    payout: AccountId,
    rentedAt: nat,
    expiresAt: nat,
    retractionAt: Option<nat>)

  datatype Terms = Terms(allocationFee: Option<nat>, tlaRent: Option<nat>, subFee: Option<nat>)

  datatype FeeConfig = FeeConfig(
    allocationFee: nat,
    rentTier5: nat,
    rentTier8: nat,
    rentTier10: nat,
    rentTier12: nat,
    subFee: nat,
    creationDeposit: nat,
    businessMaxSubs: nat,
    retractionNotice: nat,
    maxRateMoveBps: nat,
    quoteSlippageBps: nat,
    minRate: nat,
    maxRate: nat,
    rateCooldown: nat,
    maxRateAge: nat)

  /** The stored NEAR price: micro-dollars per NEAR, zero until the council sets it. */
  datatype RateBook = RateBook(rate: nat, updatedAt: nat, sequence: nat)

  datatype PauseBook = PauseBook(paused: bool, pausedUntil: nat, unpausedAt: nat)

  datatype Status = Registered | Active | Grace | Reclaimable | Suspended

  function Multiplier(p: Premium): (r: (nat, nat))
    ensures r.1 > 0
  {
    match p
    case Legendary => (5, 1)
    case Premium => (3, 1)
    case Standard => (3, 2)
    case Community => (0, 1)
  }

  /** 64-bit addition that stops at the largest value. */
  function SatAdd(a: nat, b: nat): nat {
    Min(a + b, MAX_U64)
  }
}
