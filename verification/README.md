# House of Stake Top Level Accounts: a verified model

The fleet leases names under top-level accounts (TLAs) on NEAR. A registry (`tla-registry`) keeps the
entries, takes the money and starts chains of promises; an extension contract (`hos-extension`) relays
them; each leased name is a wallet contract (`hos-wallet`) whose authority is that extension; a recovery
contract (`mpc-recovery`) moves a wallet or a name to a new owner on attested, watcher-approved requests;
and an opener (`registrar-opener`) opens batches of names an admin has approved by digest.

`dafny verify dfyconfig.toml` checks everything.

## How the model is built

Every contract appears twice. A value model gives its state, its calls and callbacks as functions that
answer the new state, or nothing where the contract panics or returns an error; run theorems quantify over
all finite runs of that machine. A class with the contract's fields updates them in place, loops where the
source loops, and each of its methods is proved to produce exactly the value model's new state.

| part | values | in place | theorems about runs |
|---|---|---|---|
| wallet | `WalletModel` | `TenantWallet` | `WalletRuns`, `WalletFreeze`, `WalletSpend`, `WalletFence`, `WalletGates` |
| recovery | `RecoveryModel`, `RecoveryMessages`, `Bytes` | `MpcRecovery` | `RecoveryRuns`, `RecoveryReset` |
| opener | `OpenerModel` | `RegistrarOpener` | `OpenerRuns` |
| registry | `RegistryTypes`, `NameTable`, `Pricing`, `Rates`, `Lifecycle`, `RegistryModel` | `TlaRegistry`, `Paging` | `IndexRuns`, `MoneyRuns`, `OrderRuns`, `SupplyRuns`, `RegistryClocks`, `RegistryGates`, `Rents` |
| registry, extension and wallets | `Agreement` | | `Agreement`, `Intents` |

A registry run is any sequence of calls by anyone and of callbacks: a call may put a chain in flight, and
any chain in flight may report any outcome at any later step, in any order. In `Agreement` the outcome is
what the wallet leg really did. The host's clock, balances and storage reserve, sha256 and ed25519 are
parameters; no hash is taken to be injective.

Where the code and its prose differ, the model follows the code: a lease can be shortened with notice
(`hos_retract_lease`), and the recovery contract's watchers can be replaced by its owner (`set_watchers`).

## Model

| member | source | states |
|---|---|---|
| `Agreement.SettledNamesAgree` | contracts/hos-extension/src/lib.rs:575-756 | in every run in which chains on one name do not overlap, whatever the interleaving across names, the wallet-local calls and the outcomes, a name with no chain in flight has a wallet with the entry's owner and payout, a lease no longer than the entry's term, and equal to it unless a retraction is recorded |
| `Agreement.RunsAgree` | contracts/tla-registry/src/nft.rs:179-362 | the invariant behind it: before its wallet leg a chain's wallet matches the entry it started from, after a successful leg the entry it will leave |
| `Agreement.RotationLeg` | contracts/hos-wallet/src/lib.rs:697-818 | a transfer, venue deposit, give-back or recovery carried out by the wallet yields exactly the owner and payout the registry's callback will record |
| `Agreement.LeaseLeg` | contracts/hos-wallet/src/lib.rs:551-692 | a renewal, payout change, retraction, reclaim notice or restored lease carried out by the wallet matches the entry its callback will leave |
| `Agreement.ReRentLeg` | contracts/hos-wallet/src/lib.rs:719-750 | a re-rent that the wallet accepts gives it the owner, payout and term of the provisional entry, whatever it held before |
| `Agreement.MintLands` | contracts/tla-registry/src/callbacks.rs:25-159 | a settled mint or re-rent leaves no entry or one the wallet matches; a cleared balance gate goes on in step |
| `Agreement.MoveLands` | contracts/tla-registry/src/marketplace.rs:176-263 | a settled transfer, deposit, give-back or recovery, succeeded or failed, leaves the entry matching the wallet |
| `Agreement.OtherLands` | contracts/tla-registry/src/business.rs:152-192 | a settled renewal, payout change, retraction, cancellation, notice or reclaim, succeeded or failed, leaves the entry matching the wallet or gone |
| `Agreement.LocalKeeps` | contracts/hos-wallet/src/lib.rs:950-1004 | no call on a wallet outside the chains changes its owner, payout or lease |
| `Intents.SettlementsAnswerCalls` | contracts/tla-registry/src/marketplace.rs:97-263 | in every run of non-overlapping chains each deciding settlement answers one earlier accepted call on its name, busy since, and leaves the entry that call promised if it succeeded and what the call found if it failed |
| `Intents.CallsKeepTheirWord` | contracts/tla-registry/src/rental.rs:115-540 | the same from the call's side, for all ten kinds of call on a name: owner, payout, term and retraction are those read off the call, gate or no gate |
| `Intents.HandedNamesArrive` | contracts/tla-registry/src/nft.rs:127-230 | a transfer, token transfer, transfer-call or recovery that succeeds leaves entry and wallet with the receiver the call named, and the payout too unless the receiver is a venue |
| `Intents.LeasedNamesArrive` | contracts/tla-registry/src/rental.rs:580-637 | a rent, paid rent or claim that succeeds leaves entry and wallet with the tenant, payout and term of the call |
| `Intents.OwnersChangeByConsent` | contracts/tla-registry/src/marketplace.rs:124-173 | a name changes hands only because its owner handed it on, a recovery authority recovered it from that owner by name, or a receiver gives back what the new owner had sent it |
| `Intents.PayoutsChangeByConsent` | contracts/tla-registry/src/rental.rs:350-390 | a payout changes only with a hand-over, give-back or recovery, or to what the owner or the business account's licensee asked for |
| `Intents.OutgoingHoldersArePaid` | contracts/hos-wallet/src/lib.rs:752-818 | when a transfer, deposit or reclaim is carried out the whole free balance goes to the payout account the registry has on record, unless that is the receiver or the wallet itself |
| `Intents.ChainOrigin` | contracts/tla-registry/src/nft.rs:179-330 | every chain in flight was started by one accepted call on its name and still serves it |
| `Rents.LongerNamesCostNoMore` | contracts/tla-registry/src/fees.rs:6-19 | under one open account a longer name never costs more |
| `Rents.PricesChangeBetweenBands` | contracts/tla-registry/src/fees.rs:6-13 | names of one band cost the same; the price only changes past 5, 8 and 10 letters |
| `Rents.LongerTlasCostNoMore` | contracts/tla-registry/src/lib.rs:667-672 | a longer top-level account without terms of its own never costs more, and costs the same within a band |
| `Rents.DearerClassesCostNoLess` | contracts/tla-registry/src/types.rs:99-106 | names under a dearer premium class never cost less |
| `Rents.PriceList` | contracts/tla-registry/src/fees.rs:6-37 | each band costs its own tier: five, three, one and a half times or nothing by class; a business account its own terms or the default fee |
| `Rents.DeployedPrices` | contracts/tla-registry/src/fees.rs:39-57 | at the deployed fees a five-letter name under a standard account costs 75 dollars, a twelve-letter one 7.50 |
| `Rents.TiersAlwaysDescend` | contracts/tla-registry/src/admin.rs:509-514 | in every run of the registry the rent tiers descend |
| `Rents.RentsEarnTheirPrice` | contracts/tla-registry/src/rental.rs:115-188 | an accepted rent or re-rent that settles successfully earns exactly the converted price of its name, a failed one nothing |
| `Rents.RenewalsEarnTheirPrice` | contracts/tla-registry/src/rental.rs:425-540 | a renewal earns exactly the converted price when it succeeds and refunds exactly that when it fails |
| `Rents.TlasEarnTheirPrice` | contracts/tla-registry/src/rental.rs:64-346 | an activation earns the converted allocation fee and rent, a renewed account its rent; the excess is credited and the term is a year |
| `RegistryGates.PausesStopTheRegistry` | contracts/tla-registry/src/lib.rs:624-633 | for seven days from an admin's pause, until lifted, no call on a name is accepted but renewals and a venue handing out its own names, and no account is activated or renewed |
| `RegistryGates.TermsEndWithNotice` | contracts/tla-registry/src/reclaim.rs:200-248 | a reclaim takes a name only after its term or the notice period after an accepted call dated the retraction, and only past the grace of name or account or on such a retraction |
| `RegistryGates.RetractionOrigin` | contracts/tla-registry/src/business.rs:67-105 | a retraction on record was dated by an accepted retraction or reclaim of that name at just that time |
| `RegistryGates.RetractionsNeedTheLicensee` | contracts/tla-registry/src/business.rs:454-470 | retractions are dated and cancelled only by the licensee or, once resale is open, by admins or the council |
| `RegistryGates.HandoversNeedALiveName` | contracts/tla-registry/src/marketplace.rs:265-350 | an owner hands on only a live, unretracted name of an open or resale account, never to a registered name that is no venue |
| `RegistryGates.MintsAreLicensed` | contracts/tla-registry/src/rental.rs:624-660 | mints under a business account need its licensee, a payout to its licensee or a whitelist place, which a claim uses up; sponsored and paid rents need a payment authority |
| `RegistryGates.NamesStayWithinTheCap` | contracts/tla-registry/src/business.rs:472-491 | a business account that was never open has at most its cap of names after every mint |
| `RegistryGates.FailedMintsRefundTheCaller` | contracts/tla-registry/src/callbacks.rs:259-314 | a failed mint credits its whole deposit to the caller and to nobody else, and leaves no entry |
| `RegistryGates.RefundsReachTheirAccount` | contracts/tla-registry/src/lib.rs:388-420 | a claim pays the caller all that is owed to them, and a failed transfer is owed to them again |
| `RegistryGates.RatesMoveByTheirKeepers` | contracts/tla-registry/src/lib.rs:280-333 | the stored rate changes only by the oracle of the day, or once by the council while unset |
| `RecoveryRuns.SigningIsBacked` | contracts/mpc-recovery/src/lib.rs:614-702 | every accepted signing request is preceded by an attested request for exactly that account, key and round under the same unreplaced policy, and by an approval of at least threshold >= 2 distinct current watchers no earlier than the policy's timelock after it |
| `RecoveryRuns.RegistryCallIsBacked` | contracts/mpc-recovery/src/lib.rs:303-443 | the same for every registry recovery call: attested request for that name, owner and round, same policy, timelock elapsed, quorum of distinct current watchers on exactly this call |
| `RecoveryRuns.RequestedOrigin` | contracts/mpc-recovery/src/lib.rs:570-612 | an entry in the requested phase was opened by one accepted, correctly attested request, with its policy in place ever since |
| `RecoveryRuns.ApprovedOrigin` | contracts/mpc-recovery/src/lib.rs:614-671 | an approval that still stands was given by a quorum to the attested request of its round, after the timelock |
| `RecoveryRuns.NameRequestedOrigin` | contracts/mpc-recovery/src/lib.rs:303-347 | an entry in a name-recovery phase was opened by one accepted, correctly attested name request, with its policy in place ever since |
| `RecoveryRuns.RoundStep` | contracts/mpc-recovery/src/lib.rs:331-339 | a step raises an account's round by one exactly if it is an accepted request on it, and keeps phase round + 1 = entry round |
| `RecoveryRuns.RoundsNeverFall` | contracts/mpc-recovery/src/lib.rs:866-887 | the round of an account, live or kept as a floor, never falls across requests, aborts, resets and reinstalls |
| `RecoveryRuns.RequestsNeverShareARound` | contracts/mpc-recovery/src/lib.rs:521-612 | two accepted requests on one account have different rounds, the later one the larger |
| `RecoveryRuns.ActivePhaseRound` | contracts/mpc-recovery/src/lib.rs:500-568 | in every reachable state an active phase has the round just below its entry's |
| `RecoveryRuns.SameRoundSameTarget` | contracts/mpc-recovery/src/lib.rs:570-612 | two live phases of one account with the same round have the same target |
| `RecoveryRuns.LateCallbacksSettleTheirOwnRound` | contracts/mpc-recovery/src/lib.rs:937-969 | a callback that changes anything changes one entry, still resolving the same round for the same new holder that dispatched it |
| `RecoveryRuns.WatchersValid` | contracts/mpc-recovery/src/lib.rs:211-229 | in every reachable state the watchers are distinct ed25519 keys and the threshold is between 2 and their number |
| `MpcRecovery.VerifyQuorum` | contracts/mpc-recovery/src/proof.rs:95-111 | the loop answers whether at least threshold distinct watchers hold some valid signature, whatever the order and repeats of the signatures |
| `MpcRecovery.CheckWatchers` | contracts/mpc-recovery/src/lib.rs:89-126 | the loop accepts exactly the distinct ed25519 watcher lists with a threshold of at least two and at most their number |
| `MpcRecovery.MpcRecovery.constructor` | contracts/mpc-recovery/src/lib.rs:89-126 | the fresh contract is the state machine's initial state |
| `MpcRecovery.MpcRecovery.SetWatchers` | contracts/mpc-recovery/src/lib.rs:211-229 | replaces watchers and threshold, or changes nothing, exactly as the state machine does |
| `MpcRecovery.MpcRecovery.ArmPolicyInstall` | contracts/mpc-recovery/src/lib.rs:458-483 | arms the caller's own policy, whole new state |
| `MpcRecovery.MpcRecovery.DisarmPolicyInstall` | contracts/mpc-recovery/src/lib.rs:486-491 | removes the caller's armed policy, whole new state |
| `MpcRecovery.MpcRecovery.InstallPolicy` | contracts/mpc-recovery/src/lib.rs:500-568 | installs an armed policy at the round floor or replaces a settled one at its round, whole new state |
| `MpcRecovery.MpcRecovery.RequestRecovery` | contracts/mpc-recovery/src/lib.rs:570-612 | opens the round on a valid attestation and moves the entry's round on, whole new state |
| `MpcRecovery.MpcRecovery.RequestNameRecovery` | contracts/mpc-recovery/src/lib.rs:303-347 | the same for a leased name |
| `MpcRecovery.MpcRecovery.SubmitVerdict` | contracts/mpc-recovery/src/lib.rs:614-671 | after the timelock a quorum approves or rejects the pending request, whole new state |
| `MpcRecovery.MpcRecovery.FinalizeRecovery` | contracts/mpc-recovery/src/lib.rs:673-702 | an approved recovery starts signing, whole new state |
| `MpcRecovery.MpcRecovery.RecoverName` | contracts/mpc-recovery/src/lib.rs:350-443 | a quorum on this exact call starts the registry recovery, whole new state |
| `MpcRecovery.MpcRecovery.AbortRecovery` | contracts/mpc-recovery/src/lib.rs:704-738 | a pending recovery is replaced by the cooldown of whoever aborts, whole new state |
| `MpcRecovery.MpcRecovery.SettleNameResolving` | contracts/mpc-recovery/src/lib.rs:937-954 | settles a name recovery only in the round given |
| `MpcRecovery.MpcRecovery.OnNameRecovered` | contracts/mpc-recovery/src/lib.rs:446-455 | the registry's answer settles its own round |
| `MpcRecovery.MpcRecovery.ClaimNameFinalized` | contracts/mpc-recovery/src/lib.rs:781-788 | the installer settles a name recovery of the given round |
| `MpcRecovery.MpcRecovery.OnSigned` | contracts/mpc-recovery/src/lib.rs:741-763 | a signing answer returns its own round to the approved phase |
| `MpcRecovery.MpcRecovery.ClaimNativeFinalized` | contracts/mpc-recovery/src/lib.rs:765-779 | the installer closes an approved recovery of the given round |
| `MpcRecovery.MpcRecovery.OnWalletTransferred` | contracts/mpc-recovery/src/lib.rs:866-887 | drops the policy and keeps the round as a floor, except while signing |
| `RecoveryMessages.MessagesRoundTrip` | contracts/mpc-recovery/src/proof.rs:8-78 | decoding an encoded message of any of the four kinds gives it back, for all accounts, names, keys, rounds and deadlines |
| `RecoveryMessages.DecodingIsCanonical` | contracts/mpc-recovery/src/proof.rs:8-78 | a byte string that decodes is the encoding of what it decodes to |
| `RecoveryMessages.MessagesNeverCollide` | contracts/mpc-recovery/src/proof.rs:23-78 | two messages with the same bytes are the same message, so no message of one kind equals one of another |
| `RecoveryMessages.MessageCore` | contracts/mpc-recovery/src/proof.rs:8-21 | the appended bytes are the common head of a native message |
| `RecoveryMessages.RequestMessage` | contracts/mpc-recovery/src/proof.rs:23-30 | the appending encoder produces the encoding of the request |
| `RecoveryMessages.VerdictMessage` | contracts/mpc-recovery/src/proof.rs:32-42 | the appending encoder produces the encoding of the verdict |
| `RecoveryMessages.NameCore` | contracts/mpc-recovery/src/proof.rs:44-58 | the appended bytes are the common head of a name message |
| `RecoveryMessages.NameRequestMessage` | contracts/mpc-recovery/src/proof.rs:44-58 | the appending encoder produces the encoding of the name request |
| `RecoveryMessages.NameRecoveryMessage` | contracts/mpc-recovery/src/proof.rs:60-78 | the appending encoder produces the encoding of the name recovery |
| `Bytes.TextBack` | contracts/mpc-recovery/src/proof.rs:123-126 | a length-prefixed text can be read back from the front of any bytes, with the rest |
| `Bytes.LeValueOfBytes` | contracts/mpc-recovery/src/proof.rs:8-21 | little-endian bytes determine their number |
| `RecoveryReset.TransferredWalletsStartOver` | contracts/mpc-recovery/src/lib.rs:866-887 | after an accepted wallet transfer, unless a signature is being made, the account has no policy and no request, verdict, signing or name recovery on it is accepted until an install; its round is kept |
| `RecoveryReset.NewPoliciesAreConsented` | contracts/mpc-recovery/src/lib.rs:500-568 | an entry that exists again after a transfer comes after an install of a key and timelock the account itself had armed |
| `RecoveryReset.FirstPoliciesAreArmed` | contracts/mpc-recovery/src/lib.rs:458-568 | a first policy is one the account itself armed, and each arming serves one install |
| `RecoveryReset.AbortsKeepRequestsOut` | contracts/mpc-recovery/src/lib.rs:704-738 | after an abort no request on the account is accepted for a day if the holder aborted, for ten minutes otherwise |
| `RecoveryReset.WatchersChangeByOwner` | contracts/mpc-recovery/src/lib.rs:211-229 | watchers and threshold change only by the contract's owner, to what the owner named |
| `WalletSpend.NearMeter` | contracts/hos-wallet/src/lib.rs:950-1324 | between a grant's creation and its end, across re-grants and any split of requests into promises, the NEAR moved by the grantee's plain transfers equals the grant's spent counter and never exceeds the largest budget granted |
| `WalletSpend.TokenMeter` | contracts/hos-wallet/src/lib.rs:1178-1324 | the same per token while every re-grant keeps listing it |
| `WalletSpend.RequestMeter` | contracts/hos-wallet/src/lib.rs:1218-1324 | one request adds to each counter exactly what its promises move, and stays within the budget |
| `WalletSpend.UnlistedTokenStays` | contracts/hos-wallet/src/lib.rs:1293-1324 | a request never moves a token the grant does not list |
| `WalletSpend.ReserveKept` | contracts/hos-wallet/src/lib.rs:1019-1031 | an accepted request leaves the balance less all dispatched deposits, floored at zero as in the code, at or above the reserve, and for a positive reserve the balance really covers both |
| `WalletFreeze.FreezesFarApart` | contracts/hos-wallet/src/lib.rs:821-851 | two authority freezes start at least fourteen days apart, whatever freezes, unfreezes and rotations lie between |
| `WalletFreeze.HeldByFreeze` | contracts/hos-wallet/src/lib.rs:1055-1062 | every instant at which the authority's freeze is in force lies within seven days of the freeze that caused it |
| `WalletFreeze.FreezeDensity` | contracts/hos-wallet/src/lib.rs:821-873 | of the instants of any fourteen-day window at most seven days' worth find the wallet frozen by the authority |
| `WalletRuns.LeaseNotice` | contracts/hos-wallet/src/lib.rs:656-784 | if the lease ends at L at time t, no reclaim, re-rent or lease-gated sweep succeeds before min(L, t + 12h) in any continuation |
| `WalletRuns.RunsAreSound` | contracts/hos-wallet/src/lib.rs:295-349 | in every run the authority stays an extension, owner differs from authority, none of owner, payout and extensions is the account itself, and grants exist only for other extensions and never name the account or its collection |
| `WalletRuns.RevertUndoesLastRotation` | contracts/hos-wallet/src/lib.rs:752-818 | a successful revert restores exactly the owner before the immediately preceding rotation, which is no revert, within its five-minute window |
| `WalletRuns.RotationSeqCounts` | contracts/hos-wallet/src/lib.rs:752-818 | the rotation sequence number counts the successful rotations of the run |
| `WalletFence.GranteesStayInside` | contracts/hos-wallet/src/lib.rs:1120-1354 | every promise of an accepted request by anyone but the owner is transfers to a listed receiver, one transfer of a listed token to a listed receiver, or one transfer of a fenced item to a listed receiver, under an unexpired grant the present owner gave |
| `WalletFence.GrantOrigin` | contracts/hos-wallet/src/lib.rs:389-425 | every grant in force was asked for, receiver by receiver and budget by budget, by the owner who still holds the wallet |
| `WalletFence.PromisesPassIff` | contracts/hos-wallet/src/lib.rs:1218-1354 | a promise passes if and only if it is inside the fence, within the budget and no call on the wallet's own collection |
| `WalletGates.FreezesStopTheTenant` | contracts/hos-wallet/src/lib.rs:1033-1062 | from an accepted freeze until it is lifted, for the authority's at most seven days and for the owner's while that owner holds the wallet, nothing is sent, granted or edited by anyone but the authority |
| `WalletGates.FreezesAreLiftedByTheirMaker` | contracts/hos-wallet/src/lib.rs:854-873 | an unfreeze is accepted only from the side that froze, and changes nothing else |
| `WalletGates.ParkedWalletsStandStill` | contracts/hos-wallet/src/lib.rs:1033-1053 | a reclaimed wallet sends, grants and edits nothing for a tenant until its lease is set or it is rented again |
| `WalletGates.EndedLeasesStopTheTenant` | contracts/hos-wallet/src/lib.rs:1046-1066 | past its lease a wallet sends, grants and edits nothing for a tenant |
| `WalletGates.OwnersSendIff` | contracts/hos-wallet/src/lib.rs:950-966 | the owner's promises pass if and only if the lease runs, the wallet is neither parked nor frozen, the balance covers them above the reserve and none is to the wallet itself |
| `WalletGates.RotationsNeedGrounds` | contracts/hos-wallet/src/lib.rs:697-788 | a rotation is the authority's, never to itself or the wallet, and needs a holder's request, an ended lease, a target not self-frozen, or the pinned revert in its window, by cause |
| `WalletGates.RotationsClearTheDeck` | contracts/hos-wallet/src/lib.rs:789-814 | a rotation leaves the authority and the new owner as only extensions and no grant |
| `WalletGates.CoOwnersAreNew` | contracts/hos-wallet/src/lib.rs:976-1004 | after a rotation every further extension was added since, by the owner or past the lease by the authority |
| `TenantWallet.TotalDeposit` | contracts/hos-wallet/src/lib.rs:1019-1031 | the loop adds up the deposits of all actions of a promise |
| `TenantWallet.ChargePromise` | contracts/hos-wallet/src/lib.rs:1218-1354 | charges one promise to a grant exactly as the metering function does, or refuses it |
| `TenantWallet.WithinReserve` | contracts/hos-wallet/src/lib.rs:1019-1031 | the loop decides exactly whether the promises leave the reserve |
| `TenantWallet.TenantWallet.constructor` | contracts/hos-wallet/src/lib.rs:295-349 | the initialised wallet is the one of the value model |
| `TenantWallet.TenantWallet.TokenBudgets` | contracts/hos-wallet/src/lib.rs:1178-1199 | the loop builds the budgets of a grant, carrying what was spent, or refuses the list |
| `TenantWallet.TenantWallet.ItemFences` | contracts/hos-wallet/src/lib.rs:1201-1216 | the loop builds the item fences of a grant, or refuses the list |
| `TenantWallet.TenantWallet.GrantSpend` | contracts/hos-wallet/src/lib.rs:389-425 | whole new state of a grant, or nothing |
| `TenantWallet.TenantWallet.RevokeSpend` | contracts/hos-wallet/src/lib.rs:428-433 | whole new state of a revocation, or nothing |
| `TenantWallet.TenantWallet.SetPayoutAccount` | contracts/hos-wallet/src/lib.rs:551-561 | whole new state of a payout change for the expected owner, or nothing |
| `TenantWallet.TenantWallet.SetLease` | contracts/hos-wallet/src/lib.rs:656-671 | whole new state of a lease that is never shortened here, or nothing |
| `TenantWallet.TenantWallet.RetractLease` | contracts/hos-wallet/src/lib.rs:674-692 | whole new state of a shortened lease with at least twelve hours' notice, or nothing |
| `TenantWallet.TenantWallet.RotationAllowed` | contracts/hos-wallet/src/lib.rs:752-788 | every check of a rotation, by cause |
| `TenantWallet.TenantWallet.Strip` | contracts/hos-wallet/src/lib.rs:776-800 | what every rotation takes away |
| `TenantWallet.TenantWallet.Install` | contracts/hos-wallet/src/lib.rs:801-814 | what a new owner is given |
| `TenantWallet.TenantWallet.ApplyRotation` | contracts/hos-wallet/src/lib.rs:752-818 | whole new state of a rotation and the balance swept to the old payout, or nothing |
| `TenantWallet.TenantWallet.TransferOwnership` | contracts/hos-wallet/src/lib.rs:697-716 | whole new state of a transfer by the authority, or nothing |
| `TenantWallet.TenantWallet.ReRent` | contracts/hos-wallet/src/lib.rs:719-750 | whole new state of a re-rent, or nothing |
| `TenantWallet.TenantWallet.Freeze` | contracts/hos-wallet/src/lib.rs:821-851 | whole new state of an owner's or authority's freeze, or nothing |
| `TenantWallet.TenantWallet.Unfreeze` | contracts/hos-wallet/src/lib.rs:854-873 | whole new state of an unfreeze by whoever froze, or nothing |
| `TenantWallet.TenantWallet.ExecuteOp` | contracts/hos-wallet/src/lib.rs:968-1004 | whole new state of one extension edit, or nothing |
| `TenantWallet.TenantWallet.ChargeSpend` | contracts/hos-wallet/src/lib.rs:1120-1140 | the loop charges every promise to the caller's grant, or nothing |
| `TenantWallet.TenantWallet.SendExternal` | contracts/hos-wallet/src/lib.rs:950-966 | whole new state of sending the external promises, or nothing |
| `TenantWallet.TenantWallet.ExecuteExtension` | contracts/hos-wallet/src/lib.rs:950-966 | whole new state of a request: all internal ops, then all promises, or nothing |
| `OpenerRuns.NamesAreConserved` | contracts/registrar-opener/src/batch.rs:116-239 | for every live batch, names ever added = listed + in flight + opened, the three are disjoint and `remaining` is the size of the listed set, under any order of callbacks |
| `OpenerRuns.DigestsCoverTheirNames` | contracts/registrar-opener/src/batch.rs:116-135 | a batch's digest is the fold of every name ever added, and an approval named exactly that digest |
| `OpenerRuns.OpenedNamesWereApproved` | contracts/registrar-opener/src/admin.rs:16-31 | every name sent to open was folded into the digest the admin approved |
| `OpenerRuns.DigestSplits` | contracts/registrar-opener/src/names.rs:24-38 | the digest does not depend on how the list was split into calls |
| `OpenerRuns.SeedPinsSetup` | contracts/registrar-opener/src/names.rs:24-32 | the seed bytes determine code, arguments and funding |
| `OpenerRuns.SeedIsNoFold` | contracts/registrar-opener/src/names.rs:24-38 | no seed string equals a string folded later |
| `OpenerRuns.DigestPinsDraft` | contracts/registrar-opener/src/names.rs:24-38 | two drafts with one digest are the same setup and list in the same order, or two different strings hashed on the way collide |
| `OpenerRuns.OpensFollowTheAdmin` | contracts/registrar-opener/src/admin.rs:16-31 | every name the operator opens stands in a list whose digest the admin of the day had approved before |
| `OpenerRuns.LiveBatchesGoByTheAdmin` | contracts/registrar-opener/src/batch.rs:138-148 | an approved batch with names left is discarded only by the admin |
| `RegistrarOpener.CheckOpenable` | contracts/registrar-opener/src/names.rs:40-57 | the loop accepts exactly the lists of distinct openable names |
| `RegistrarOpener.FreeNames` | contracts/registrar-opener/src/batch.rs:151-173 | the loop removes exactly the forgotten names from a set and counts those that were there |
| `RegistrarOpener.RegistrarOpener.constructor` | contracts/registrar-opener/src/batch.rs:76-113 | the fresh contract is the state machine's initial state |
| `RegistrarOpener.RegistrarOpener.CreateBatch` | contracts/registrar-opener/src/batch.rs:76-113 | whole new state with the seeded draft, or nothing |
| `RegistrarOpener.RegistrarOpener.AddNames` | contracts/registrar-opener/src/batch.rs:116-135 | the loop lists all names and folds all of them into the digest, or nothing |
| `RegistrarOpener.RegistrarOpener.ApproveBatch` | contracts/registrar-opener/src/admin.rs:16-31 | whole new state of an approval that names the digest, or nothing |
| `RegistrarOpener.RegistrarOpener.DiscardBatch` | contracts/registrar-opener/src/batch.rs:138-148 | whole new state without the batch, or nothing |
| `RegistrarOpener.RegistrarOpener.ForgetNames` | contracts/registrar-opener/src/batch.rs:151-173 | the loop removes names left by a discarded batch and counts them, or nothing |
| `RegistrarOpener.RegistrarOpener.OpenNames` | contracts/registrar-opener/src/batch.rs:176-216 | the loop takes every name off the list and sends it, or nothing |
| `RegistrarOpener.RegistrarOpener.OnNameOpened` | contracts/registrar-opener/src/batch.rs:219-239 | a failed name goes back on the list of its batch if that still stands |
| `MoneyRuns.MoneyIsConserved` | contracts/tla-registry/src/callbacks.rs:25-193 | while the creation deposit stands and no name is reclaimed during its mint, in every run all deposits taken by rents, claims, re-rents, renewals and activations = revenue + the sum of all refunds + what chains in flight hold + forwarded creation deposits + refunds paid out |
| `MoneyRuns.RefundsAlwaysAddUp` | contracts/tla-registry/src/lib.rs:388-420 | the total of pending refunds equals the sum of all pending refunds under every interleaving |
| `MoneyRuns.SuccessBalancesIff` | contracts/tla-registry/src/callbacks.rs:163-193 | a successful mint books its whole deposit if and only if the creation deposit is still the forwarded one, or it rose and nothing was left over |
| `MoneyRuns.FailureBalancesIff` | contracts/tla-registry/src/callbacks.rs:259-314 | a failed mint or re-rent books its whole deposit if and only if its provisional entry is still there |
| `MoneyRuns.WithdrawalsMoveMoney` | contracts/tla-registry/src/admin.rs:565-588 | a withdrawal keeps revenue plus refunds and changes nothing else |
| `MoneyRuns.StepBalances` | contracts/tla-registry/src/rental.rs:425-540 | each single call or callback balances: taken in + booked + held before = booked + held after + forwarded + paid out |
| `MoneyRuns.CallBooks` | contracts/tla-registry/src/lib.rs:681-693 | which entry each call makes in the books |
| `MoneyRuns.SettleBooks` | contracts/tla-registry/src/callbacks.rs:25-159 | which entry each settled chain makes in the books |
| `SupplyRuns.SupplyCountsSettledNames` | contracts/tla-registry/src/nft.rs:397-399 | in every run in which no name is reclaimed during its mint, the reported total supply is the number of entries less the names whose mint or re-rent is in flight |
| `SupplyRuns.ParkedNamesAreFree` | contracts/tla-registry/src/reclaim.rs:159-196 | in every such run a name that is both parked and entered is being re-rented at that moment: no settled name is parked |
| `OrderRuns.OrdersSettleOnce` | contracts/tla-registry/src/callbacks.rs:225-257 | an order id becomes settled at most once in any run |
| `OrderRuns.SettledForGood` | contracts/tla-registry/src/callbacks.rs:195-257 | a settled order stays settled |
| `OrderRuns.CountersAccountForOrders` | contracts/tla-registry/src/lib.rs:576-614 | while an authority is not unbound from a top-level account, its used counter equals its orders in flight plus its orders settled there |
| `OrderRuns.CountersStayWithinAllowance` | contracts/tla-registry/src/lib.rs:576-588 | a used counter never exceeds the largest allowance ever bound |
| `OrderRuns.CallLogs` | contracts/tla-registry/src/rental.rs:192-288 | how each call may change the order book, and under which condition |
| `OrderRuns.SettleLogs` | contracts/tla-registry/src/callbacks.rs:195-257 | how each settled chain may change the order book, and under which condition |
| `IndexRuns.IndexesAreExact` | contracts/tla-registry/src/indexes.rs:8-77 | under every interleaving both indexes are exactly the filters of the names, with no empty bucket and no key twice |
| `IndexRuns.BusinessCountsAreExact` | contracts/tla-registry/src/business.rs:472-515 | the counter of a top-level account that was never open equals the size of its bucket |
| `IndexRuns.TlaOfEntry` | contracts/tla-registry/src/types.rs:406-408 | an entry found under a valid name of a top-level account belongs to it |
| `IndexRuns.SettleFrame` | contracts/tla-registry/src/reclaim.rs:159-196 | a settled chain touches no other name's entry |
| `NameTable.InsertIndexes` | contracts/tla-registry/src/indexes.rs:39-45 | inserting a new name keeps both indexes exact and lengthens one bucket by one |
| `NameTable.RemoveIndexes` | contracts/tla-registry/src/indexes.rs:47-53 | removing a name keeps both indexes exact, drops emptied buckets and shortens one bucket by one |
| `NameTable.ReassignIndexes` | contracts/tla-registry/src/indexes.rs:55-71 | reassigning a name keeps both indexes exact |
| `NameTable.SwapRemoves` | contracts/tla-registry/src/indexes.rs:20-28 | removal by moving the last key keeps exactly the other keys, each once |
| `NameTable.KeysAreDistinct` | contracts/tla-registry/src/types.rs:361-408 | two valid names with one key are the same name under the same top-level account |
| `Paging.PagesListEachNameOnce` | contracts/tla-registry/src/nft.rs:433-474 | following the cursor with any page limits terminates and lists every name of the owner exactly once, in index order |
| `Paging.TokensForOwnerPage` | contracts/tla-registry/src/nft.rs:433-474 | the loop refuses exactly the unknown cursors and otherwise returns the page after the cursor and the cursor for the rest |
| `Paging.PagesFrom` | contracts/tla-registry/src/nft.rs:433-474 | the pages from any cursor on concatenate to the rest of the bucket |
| `Pricing.ConversionNeverOverflows` | contracts/tla-registry/src/pricing.rs:13-24 | within the fee cap and at any positive rate the conversion yields the rounded-down price without overflow |
| `Pricing.QuoteIsExact` | contracts/tla-registry/src/pricing.rs:26-47 | the split computation of a quote never overflows and equals amount + ceil(amount * bps / 10000) |
| `Pricing.QuoteCoversLaterCharge` | contracts/tla-registry/src/pricing.rs:26-47 | if the rate fell by no more than the slippage allows, the quote covers the later charge up to one yocto |
| `Pricing.ShortfallIsReached` | contracts/tla-registry/src/pricing.rs:13-47 | a concrete quote that falls one yocto short: the bound is the best possible |
| `Rates.RateStaysInBand` | contracts/tla-registry/src/lib.rs:280-333 | from deployment on, across fee changes, the rate is unset or inside the configured band |
| `Rates.NoRateIsStranded` | contracts/tla-registry/src/pricing.rs:63-84 | every accepted oracle update starts from a usable rate and its bounds do not overflow: the recovery branch is never taken |
| `Rates.PriceDrift` | contracts/tla-registry/src/pricing.rs:49-84 | with the fees fixed, n updates satisfy r0*(10000-m)^n <= rn*10000^n <= r0*(10000+m)^n and span at least n cooldowns |
| `Lifecycle.GraceAfterPause` | contracts/tla-registry/src/lib.rs:631-651 | a name found reclaimable, by its own expiry, its top-level account's or a retraction, is so at least one grace period after every earlier paused instant |
| `Lifecycle.NeverBoth` | contracts/tla-registry/src/rental.rs:438-454 | no name is renewable and reclaimable at the same instant |
| `Lifecycle.FloorHolds` | contracts/tla-registry/src/lifecycle.rs:4-26 | every way of becoming reclaimable passes the reclaim floor |
| `RegistryClocks.ReclaimsWaitOutPauses` | contracts/tla-registry/src/reclaim.rs:85-121 | in every run of the whole registry an accepted reclaim comes at least one grace period after every earlier paused instant |
| `RegistryClocks.RegistryRateStaysInBand` | contracts/tla-registry/src/admin.rs:496-561 | in every run of the whole registry the rate is unset or inside the band |
| `RegistryClocks.StepProjects` | contracts/tla-registry/src/lib.rs:365-385 | each step of the registry is one step of its price and one of its pause clock |
| `TlaRegistry.TlaRegistry.constructor` | contracts/tla-registry/src/lib.rs:173-250 | the deployed registry is the state machine's initial state |
| `TlaRegistry.TlaRegistry.IndexByOwner` | contracts/tla-registry/src/indexes.rs:8-18 | adds a key to the owner's bucket, creating it if needed |
| `TlaRegistry.TlaRegistry.IndexByTla` | contracts/tla-registry/src/indexes.rs:8-18 | adds a key to the top-level account's bucket, creating it if needed |
| `TlaRegistry.TlaRegistry.UnindexByOwner` | contracts/tla-registry/src/indexes.rs:20-28 | removes a key from the owner's bucket, dropping it when empty |
| `TlaRegistry.TlaRegistry.UnindexByTla` | contracts/tla-registry/src/indexes.rs:20-28 | removes a key from the top-level account's bucket, dropping it when empty |
| `TlaRegistry.TlaRegistry.SubAccountInsert` | contracts/tla-registry/src/indexes.rs:39-45 | entry and both indexes change together, nothing else |
| `TlaRegistry.TlaRegistry.SubAccountRemove` | contracts/tla-registry/src/indexes.rs:47-53 | entry, both indexes and the claim mark go together, nothing else |
| `TlaRegistry.TlaRegistry.SubAccountReassign` | contracts/tla-registry/src/indexes.rs:55-71 | owner, payout and owner index change together, or nothing when there is no entry |
| `TlaRegistry.TlaRegistry.AddPendingRefund` | contracts/tla-registry/src/lib.rs:681-686 | one refund and the total grow by the same amount |
| `TlaRegistry.TlaRegistry.RefundExcess` | contracts/tla-registry/src/lib.rs:688-693 | what was attached beyond the charge is credited |
| `TlaRegistry.TlaRegistry.ClaimRefund` | contracts/tla-registry/src/lib.rs:388-406 | the refund leaves the books and a transfer is in flight, or nothing |
| `TlaRegistry.TlaRegistry.OnClaimRefundSettled` | contracts/tla-registry/src/lib.rs:409-420 | a failed transfer is credited again |
| `TlaRegistry.TlaRegistry.Withdraw` | contracts/tla-registry/src/admin.rs:565-588 | whole new state of a withdrawal, or nothing |
| `TlaRegistry.TlaRegistry.RecordAuthorityMint` | contracts/tla-registry/src/lib.rs:599-614 | the used counter grows by one |
| `TlaRegistry.TlaRegistry.ReserveOrder` | contracts/tla-registry/src/rental.rs:192-288 | the order is in flight and the counter one higher |
| `TlaRegistry.TlaRegistry.ReleaseAuthorityMint` | contracts/tla-registry/src/lib.rs:590-597 | the used counter falls by one, never below zero |
| `TlaRegistry.TlaRegistry.ReleaseOrder` | contracts/tla-registry/src/callbacks.rs:195-223 | an order still in flight for this mint is dropped and its use given back; a stale one is left alone |
| `TlaRegistry.TlaRegistry.ConfirmOrder` | contracts/tla-registry/src/callbacks.rs:225-257 | an order still in flight for this mint becomes settled; a stale one is left alone |
| `TlaRegistry.TlaRegistry.AdminReleasePaidOrder` | contracts/tla-registry/src/admin.rs:703-727 | after an hour an admin may release an order in flight |
| `TlaRegistry.TlaRegistry.BusinessCountCheckAndBump` | contracts/tla-registry/src/business.rs:479-491 | counts one more name, or refuses at the cap |
| `TlaRegistry.TlaRegistry.BusinessCountDecrementIfBusiness` | contracts/tla-registry/src/business.rs:493-515 | counts one name less for a business account |
| `TlaRegistry.TlaRegistry.OpenCounted` | contracts/tla-registry/src/rental.rs:580-601 | count and provisional entry are written together |
| `TlaRegistry.TlaRegistry.StartLease` | contracts/tla-registry/src/rental.rs:603-697 | whole new state and the chain started: mint, balance gate or re-rent |
| `TlaRegistry.TlaRegistry.RentSubAccount` | contracts/tla-registry/src/rental.rs:115-188 | whole new state and chain of a rent or re-rent, or nothing |
| `TlaRegistry.TlaRegistry.RentSubAccountPaid` | contracts/tla-registry/src/rental.rs:192-288 | whole new state and chain of a paid rent, with its order reserved, or nothing |
| `TlaRegistry.TlaRegistry.ClaimName` | contracts/tla-registry/src/business.rs:365-405 | whole new state and chain of a claim by a whitelisted account, or nothing |
| `TlaRegistry.TlaRegistry.ActivateTla` | contracts/tla-registry/src/rental.rs:64-111 | whole new state of an activation, or nothing |
| `TlaRegistry.TlaRegistry.RenewTla` | contracts/tla-registry/src/rental.rs:292-346 | whole new state of a renewed top-level account, or nothing |
| `TlaRegistry.TlaRegistry.RenewSubAccount` | contracts/tla-registry/src/rental.rs:425-491 | whole new state and chain of a renewal, or nothing |
| `TlaRegistry.TlaRegistry.SettleFailedMint` | contracts/tla-registry/src/callbacks.rs:259-278 | entry, indexes, count and refund are settled together, or nothing when the entry is gone |
| `TlaRegistry.TlaRegistry.SettleStrandedMint` | contracts/tla-registry/src/callbacks.rs:280-314 | the same, and the name is parked |
| `TlaRegistry.TlaRegistry.RecordRental` | contracts/tla-registry/src/callbacks.rs:163-193 | order, counter, revenue and excess of a successful mint, or nothing when the entry is gone |
| `TlaRegistry.TlaRegistry.OnSubAccountCreated` | contracts/tla-registry/src/callbacks.rs:25-116 | whole new state for each of the three mint outcomes, for rents, paid rents and claims |
| `TlaRegistry.TlaRegistry.OnReRentBalancesChecked` | contracts/tla-registry/src/rental.rs:543-566 | a blocked re-rent is undone with its order left in flight, a clear one goes on |
| `TlaRegistry.TlaRegistry.RecordReRent` | contracts/tla-registry/src/callbacks.rs:137-146 | order, park, counter, revenue and excess of a successful re-rent |
| `TlaRegistry.TlaRegistry.OnSubAccountReRented` | contracts/tla-registry/src/callbacks.rs:119-159 | whole new state of a settled re-rent |
| `TlaRegistry.TlaRegistry.OnSubAccountRenewed` | contracts/tla-registry/src/rental.rs:506-540 | the term and revenue of a renewal that reached the wallet, else its refund |
| `TlaRegistry.TlaRegistry.OnPayoutSet` | contracts/tla-registry/src/rental.rs:393-421 | the new payout is recorded if the wallet took it and the owner is still the expected one |
| `TlaRegistry.TlaRegistry.OnSubAccountTransferred` | contracts/tla-registry/src/marketplace.rs:217-263 | owner and payout of a plain transfer, or nothing |
| `TlaRegistry.TlaRegistry.CommitNftRotation` | contracts/tla-registry/src/nft.rs:532-563 | owner and payout of a token transfer and the receiver's call, or a failure without trace |
| `TlaRegistry.TlaRegistry.OnReturnResolved` | contracts/tla-registry/src/nft.rs:336-362 | a name handed back returns to the sender, payout included |
| `TlaRegistry.TlaRegistry.OnSubAccountRecovered` | contracts/tla-registry/src/marketplace.rs:176-214 | owner and payout of a recovery, or nothing |
| `TlaRegistry.TlaRegistry.ScheduleRetraction` | contracts/tla-registry/src/business.rs:67-105 | whole new state and chain of a retraction, or nothing |
| `TlaRegistry.TlaRegistry.OnRetractionScheduled` | contracts/tla-registry/src/business.rs:152-176 | a retraction the wallet refused is forgotten |
| `TlaRegistry.TlaRegistry.OnRetractionCanceled` | contracts/tla-registry/src/business.rs:179-192 | a retraction whose lease was restored is forgotten |
| `TlaRegistry.TlaRegistry.ReclaimFinalize` | contracts/tla-registry/src/reclaim.rs:85-121 | a reclaim of a running term gives notice first, a due one starts parking, otherwise nothing |
| `TlaRegistry.TlaRegistry.OnBalancesChecked` | contracts/tla-registry/src/reclaim.rs:124-156 | a blocked or no longer due reclaim is released, a clear one goes on |
| `TlaRegistry.TlaRegistry.OnReclaimFinalized` | contracts/tla-registry/src/reclaim.rs:159-196 | entry, indexes, counters and park of a reclaimed name change together |
| `TlaRegistry.TlaRegistry.ParkReclaimed` | contracts/tla-registry/src/reclaim.rs:177-190 | the counters fall and the name is parked |
| `TlaRegistry.TlaRegistry.Pause` | contracts/tla-registry/src/lib.rs:365-374 | an admin pauses for seven days |
| `TlaRegistry.TlaRegistry.Unpause` | contracts/tla-registry/src/lib.rs:377-385 | an admin ends the pause and its instant is kept |
| `TlaRegistry.TlaRegistry.CommitRate` | contracts/tla-registry/src/lib.rs:555-566 | rate, instant and sequence number change together |
| `TlaRegistry.TlaRegistry.AdminSetInitialRate` | contracts/tla-registry/src/lib.rs:280-293 | the council's first rate inside the band, or nothing |
| `TlaRegistry.TlaRegistry.SetNearUsdRate` | contracts/tla-registry/src/lib.rs:296-333 | an oracle update after the cooldown within the move bound, or nothing |

## Left out

- Upgrades, migrations, legacy state readers, sealing, implementation pinning and `wallet-impl-deployer`: code deployment and byte layout the model cannot see.
- Two-step rotations of council, treasury and opener admin, and the admin, venue and authority lists one by one: in the registry one governance step may change all of them at once; they would only add easy members.
- Batch whitelisting, registration and activation loops (`admin.rs`, `business.rs`): covered by the same governance step, not loop by loop.
- In-place form of the registry's read-only dispatchers (`set_payout_account`, transfers, `recover_sub_account`, `cancel_retraction`) and of binding, unbinding, type changes, forced parks and cleared reclaims: functions of `RegistryModel` only, so aliasing and update order are not captured there.
- In-place form of the recovery contract's installer, owner rotation and registry setters: functions of `RecoveryModel` only.
- The extension's own state (pause flag, pending sweeps, pending recovery resets): the relay is a leg that may fail at any time; a leg the wallet has carried out is always reported back.
- Sweeps of fungible tokens and storage deposits, the registrar's account creation, and gas: outcomes are nondeterministic.
- Signature nonces, promise building and the transaction bytes of `tx.rs`: a request is its internal ops and its promises.
- JSON, events and views other than the cursor page.
- `registrar-opener`'s single `create_account`: it bypasses batches by design.
- Saturation of yocto sums at 128 bits and of counters: sums are unbounded here; the 64-bit saturation of registry times is modelled.
- `Agreement.SettledNamesAgree`: chains on one name that overlap are outside its hypothesis; the registry does not prevent them.
