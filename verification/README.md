# Verified model of the Fofu backend core

A Dafny model of the parts of the Fofu backend where several requests, workers and time interact:
the push outbox with its leases, the session state machine that feeds it, exactly-once messaging and
order cards, the batched regional import, and the smaller algorithms around them (opening hours, dietary
compatibility, page cursors, owner uniqueness, the rate limiter).

## How it is organised

| files | subject |
|---|---|
| `Common`, `Backend`, `Schema` | shared types, the tables of the backend, the constraints of their declarations |
| `PushSpec`, `SessionSpec`, `ChatSpec` | what each service operation does to the tables, as functions on a `World` |
| `PushService`, `SessionService`, `ChatService` | the same operations as they run: methods on a `Store` whose fields they update in place, each proved to do exactly what its function says |
| `Invariant`, `Movement`, `SessionInvariant`, `ChatInvariant` | what every committed state satisfies, and how one state leads to the next |
| `OutboxRuns`, `OutboxSafety` | the whole system as a state machine, and the proof that every step keeps its invariant |
| `OutboxProgress`, `OutboxTheorems`, `CredentialRuns`, `ChatRuns` | the main results, over every run |
| `RevocationWitnesses` | two runs from empty tables that leave an active device on a revoked session |
| `Bystanders`, `Grants`, `AccountSteps` | what a caller of the account service can rely on, and the service call as a step of the system |
| `ClaimEffects`, `DispatchEffects`, `FanOut`, `DeviceEffects`, `AccountEffects` | what each operation decides and writes, told from the columns of the tables without the functions of the specification; a push from the message to the sender |
| `OrderCards`, `Billing`, `OrderCardRuns` | building and preparing order cards; what they and the orders say of the cart; their idempotency under interleaving |
| `Upsert`, `CatalogImport`, `CatalogImporter` | the batched upsert for any table, the rows of the regional import, the import as one call |
| `OpeningHours`, `Compatibility`, `Cursor`, `Ownership`, `RateLimit` | one component each |

Conventions of the model:

- Every database transaction is one atomic step. A dispatch is three steps (check, hand to the sender, finish);
  a message send and an order-card preparation look up and insert in separate steps, and a registration may act on
  a principal that was authenticated arbitrarily long before. A worker that crashes or stalls is one that takes no
  further step. Runs are finite sequences of steps of any number of requests and workers.
- Primary keys, refresh tokens (identified with their digests) and lease ids are drawn from one counter, which
  stands for fresh random values. Time is a real number and never goes back. Row locks that a claim skips are an
  arbitrary set of rows.
- The answer of APNs, the outcome of password verification, the rate limiter's admission of a registration, the
  jitter derived from a delivery id, and the verified Google subject and email are parameters that may take any value.
  An operator may close or reopen any account at any time, and a media asset is what a send reads of it.
- Session lifetimes are positive where credentials are said to work; the configuration asks for a day, and for five
  minutes in a QR session (app/config.py:49-50).
- Emails are already normalised. Upgrade, sign-in and registration act on the tables alone; access tokens are the
  claims they carry.
- The uuid5 ids of the importer and the digest of an order-card request are taken to be collision-free.
- Cursor decoding follows the standard library of CPython 3.11 and later: characters outside the alphabet are skipped
  and enough padding ends the input.

What turned out not to hold, and exactly when it does:

- An active device can be left on a revoked session by two steps: the command-line promotion to administrator, exactly
  when the account has an active device (`CredentialRuns.PromotionLeavesDevices`), and a successful registration, exactly
  when its session is revoked between its authentication and its commit (`CredentialRuns.LateRegistrationLeavesDevice`).
  No other step does (`CredentialRuns.StepKeepsRevocation`). Both happen in runs from empty tables
  (`RevocationWitnesses.PromotionCanLeaveADevice`, `RevocationWitnesses.LateRegistrationCanLeaveADevice`), and the next
  claim repairs both (`CredentialRuns.ClaimRepairs`).
- A stored order does not answer a call that is still building its card: such a call can be told of a conflict with the
  current menu although its order stands (`OrderCardRuns.LateBuildCanMissTheOrder`). This is the only way around the
  stored order (`OrderCardRuns.AnswersAfterStored`).
- Credentials granted by a QR entry are refused from the start exactly when the account was upgraded or closed since the
  request read it (`Grants.GrantsWork`).
- The two opening-hours predicates differ for an open restaurant whose zone no published restaurant shares
  (`OpeningHours.SqlAgreesWithRows`).
- A larger batch size can refuse an import that passes row by row (`Upsert.BatchSizeCanRefuse`); `Upsert.BatchesExact`
  says exactly when.
- The two compatibility assessors agree on an item exactly unless one of three things is so: an avoided ingredient is
  contained only through a descendant; the catalog is satisfied, but the last negative link of some allergen is weak; or
  it is satisfied, but by a diet that covers an avoided ingredient in the catalog's table only
  (`Compatibility.AssessorsAgree`). Each has its item (`Compatibility.MackerelIsFishOnlyInTheCatalog`,
  `Compatibility.LaterWeakLinkDecidesInTheCart`, `Compatibility.DairyIsCoveredOnlyInTheCatalog`).
- Following page cursors is refused beyond the largest offset (`Cursor.PagingDeliversTheList`).

## Model

| member | source | states |
|---|---|---|
| `OutboxTheorems.ReachableSound` | app/services/push.py:728-819 | every state that any run reaches from empty tables satisfies the whole system invariant |
| `OutboxTheorems.LeasesExclude` | app/services/push.py:762-818 | in every reachable state, of two open claims of one delivery at most one is unexpired and at most one holds the lease |
| `OutboxTheorems.ProcessingMeansLeased` | app/services/push.py:737-803 | a delivery is processing exactly while it holds a lease, which is exactly while an open claim of it holds that lease; attempts never exceed the maximum |
| `OutboxTheorems.QueuedRowsAreBound` | app/services/push.py:73-144 | in every reachable state each pending or processing delivery points to an existing active device of its recipient |
| `OutboxTheorems.DevicesStayCapped` | app/services/push.py:176-347 | over every run no user exceeds the device cap, installation and token each identify one device per channel, and a device belongs to the user of its session |
| `OutboxTheorems.ClaimStepIsServiceClaim` | app/services/push.py:728-819 | a claim step of the state machine is what the service's claim does, one open ticket per returned claim |
| `OutboxTheorems.ClaimIsSafe` | app/services/push.py:669-818 | a claim hands out only deliveries of active devices with a live session of an active user, leases each selected row under a new lease, and leaves no invalid device active |
| `OutboxTheorems.ClaimServesAllDue` | app/services/push.py:737-803 | a claim with room and no locked row leaves no due delivery on its channel: each is leased, cancelled or failed, so crashed and stalled workers cost nothing but time |
| `ClaimEffects.ClaimTakesWhatIsDue` | app/services/push.py:762-794 | a claim takes only rows whose time has come or whose worker's lease is over, with attempts left, for a device in service on the channel; in order of availability and creation, at most a batch; it leaves such a row only if it is locked or the batch is full of rows that are not after it |
| `ClaimEffects.ClaimDecidesEveryRow` | app/services/push.py:715-803 | every row after a claim: leased with one attempt more until now plus the lease time if taken; cancelled if queued for a device out of service, failed if idle with no attempts left, and otherwise exactly as before |
| `ClaimEffects.ClaimSweepsDevices` | app/services/push.py:669-699 | a claim takes out of service exactly the active devices without an open account and a live session of their own |
| `ClaimEffects.ClaimIssuesTickets` | app/services/push.py:795-818 | each taken row gets one new claim with the row's device, recipient and attempts and the device's token and registration time; old claims stay |
| `ClaimEffects.WaitingRowIsLeft` | app/services/push.py:769-771 | a pending row whose time has not come gets no claim, and stays as it is or is given up |
| `OutboxTheorems.OnlyTheHolderRecordsSent` | app/services/push.py:847-870 | a step makes a delivery sent if and only if it is the finish of the current lease holder with a successful answer |
| `OutboxTheorems.CancelledIsNeverSent` | app/services/push.py:853-863 | a delivery cancelled after its claim stays cancelled, whatever its worker does later |
| `OutboxTheorems.HandOversAreBounded` | app/services/push.py:737-818 | no run hands a delivery to the sender more often than the configured maximum of attempts |
| `OutboxTheorems.HandOversAreTickets` | app/services/push.py:920-935 | each claim is handed over at most once: hand-overs are counted by the claims that were handed over |
| `OutboxTheorems.RegistrationBinds` | app/services/push.py:315-347 | after a successful registration exactly one device has the installation or the token: the caller's, active, on the caller's session |
| `DeviceEffects.RegistrationIsDecided` | app/services/push.py:147-313 | the first refusal that applies; the device limit refuses exactly who registers something new while the usable devices on the channel are as many as allowed; a refusal changes nothing |
| `DeviceEffects.RegistrationSpares` | app/services/push.py:192-347 | a device that shares neither installation nor token is only swept: other users' devices and usable ones stay as they are |
| `DeviceEffects.RemovalIsExact` | app/services/push.py:370-395 | removal takes exactly the caller's active devices of the installation out of service, with what is queued for them |
| `DeviceEffects.PurgeIsExact` | app/services/push.py:938-966 | a purge deletes only decided rows from before the cutoff, the oldest first, and leaves one only if the batch is full |
| `OutboxTheorems.BackoffBounds` | app/services/push.py:912-917 | without a Retry-After the wait lies between the power of two of the attempts, counted up to ten, and a quarter above it |
| `OutboxProgress.RunAdvances` | app/services/push.py:737-908 | over any run every delivery stays equal or sinks strictly in rank, accounts only move forward, messages stay |
| `OutboxProgress.TouchesSpendRank` | app/services/push.py:737-908 | every change of a delivery is paid for out of its rank (attempts left, status), so no run changes it more than 2 * maximum + 1 times |
| `OutboxProgress.TerminalIsAbsorbing` | app/services/push.py:869-908 | sent, failed and cancelled rows never change again |
| `OutboxProgress.StaleFinishChangesNothing` | app/services/push.py:847-865 | once a claim's lease is not the stored one, its finish changes nothing, now or after any further run |
| `OutboxProgress.FinishIsFenced` | app/services/push.py:853-865 | a finish changes the tables if and only if its lease is the stored one |
| `DispatchEffects.CheckIsExact` | app/services/push.py:822-844 | in every reachable state the check clears a claim exactly if it holds the stored lease and its device is in service with the claimed token and user |
| `DispatchEffects.UndisturbedClaimIsCleared` | app/services/push.py:822-844 | a new claim is cleared at once, and after any further run that leaves its row, device, session and user as they were while the session lasts |
| `DispatchEffects.FinishIsExact` | app/services/push.py:866-917 | the finish of the lease holder, from the answer: sent for a success; pending again exactly for a retryable failure that invalidates nothing while attempts remain, at the Retry-After or after two to the power of the attempts and up to a quarter more; failed otherwise; the device is dropped, with what is queued for it, exactly for an invalidating answer about the token, user and registration stored now |
| `DispatchEffects.ClaimedRowIsSent` | app/services/push.py:920-935 | from any reachable state with a claim, the run of claim, check, hand-over and successful finish is possible and ends with the row sent |
| `OutboxSafety.StepSound` | app/services/push.py:728-935 | every step of requests, workers and clock keeps the system invariant |
| `Invariant.SoundMeetsSchema` | app/models.py:44-165 | the invariant contains every primary-key and unique constraint of the accounts, identities, sessions, devices and deliveries, of messages and participants, and every foreign key among the modelled columns |
| `Invariant.RetireKeepsSound` | app/services/push.py:100-144 | deactivating devices together with their queued deliveries keeps the invariant |
| `Invariant.ExpirySweepRetires` | app/services/push.py:669-725 | the wide expiry sweep cancels exactly the queued deliveries of the devices it deactivates |
| `Invariant.MergedKeepsSound` | app/services/push.py:316-324 | deleting one of two matching devices, with its deliveries, keeps the invariant |
| `Invariant.BoundFitsCap` | app/services/push.py:276-347 | the registered device fits under the cap even when it merges two devices or takes one from another user |
| `Invariant.BindKeepsSound` | app/services/push.py:315-347 | registration's write keeps caps, unique keys, ownership and queue binding |
| `Invariant.CapCheckIsExact` | app/services/push.py:192-313 | after the two sweeps the devices the cap check counts are all active devices of the user |
| `Invariant.FinishKeepsSound` | app/services/push.py:847-909 | finishing, including token invalidation, keeps the invariant |
| `SessionInvariant.RevokeUnitGood` | app/services/auth.py:62-115 | revoking sessions and then deactivating the devices selected by session or user keeps everything and leaves no device on a session it revoked |
| `SessionInvariant.UpgradeGood` | app/services/auth.py:118-147 | the guest upgrade with its revocations keeps everything |
| `SessionInvariant.LoginGoogleGood` | app/services/auth.py:384-569 | every path of the Google sign-in keeps everything, for any stale principal |
| `SessionInvariant.EnterByQrGood` | app/api/qr.py:306-339 | QR entry keeps everything, even when it issues from a stale guest object |
| `SessionInvariant.ProvisionAdminSteady` | scripts/create_admin.py:78-128 | the command-line promotion keeps everything but the revocation property |
| `CredentialRuns.UpgradedAtMostOnce` | app/services/auth.py:118-147 | over any run a user is upgraded from guest at most once |
| `CredentialRuns.UpgradeStepEffect` | app/services/auth.py:62-73 | an upgrade succeeds only for a guest, revokes every session the user had and leaves no active device |
| `CredentialRuns.NoGuestCredentialAfterUpgrade` | app/dependencies.py:55-74 | after the upgrade no session issued as guest authenticates or rotates again, whenever it was issued |
| `CredentialRuns.StaleQrEntryIssuesAGuestSession` | app/api/qr.py:318-339 | such a late session does get issued from a stale user object, and is unusable |
| `CredentialRuns.TokenRotatesAtMostOnce` | app/services/auth.py:572-625 | over any run each refresh token is accepted by rotation at most once |
| `CredentialRuns.LogoutEverywhere` | app/services/auth.py:628-673 | logging out everywhere revokes all sessions of the user and no other, leaves no active device, and answers false exactly when nothing changed |
| `AccountEffects.LogoutIsExact` | app/services/auth.py:649-673 | logging one device out, by refresh token or session, ends that session and its devices and nothing else, if it is the caller's; otherwise nothing happens |
| `AccountEffects.AcceptedClaims` | app/dependencies.py:42-75 | an access token is accepted exactly if it says what its live session says and its account is open and of the kind it was at issue |
| `AccountEffects.RotationIsExact` | app/services/auth.py:572-625 | a rotation writes a fresh token and a new end, which a QR session keeps; any other token is refused and nothing changes |
| `AccountEffects.GrantedExactly` | app/services/auth.py:271-625 | for each account call the exact condition on the tables under which it is granted |
| `AccountEffects.RegisterGrant` | app/services/auth.py:271-349 | a full account with the address and a password, the guest's own if there is one, and one new full session of it |
| `AccountEffects.LoginGrant` | app/services/auth.py:352-381 | one new session, in the asked scope, of the full account under the address |
| `AccountEffects.KnownGoogleGrant` | app/services/auth.py:409-447 | one new full session of the account that the subject is linked to |
| `AccountEffects.RefreshEmailFrame` | app/services/auth.py:409-447 | the account's address follows Google's exactly if it has no password and nobody else has the address |
| `AccountEffects.GoogleAccountGrant` | app/services/auth.py:448-569 | a new subject without a caller gets a new account under the address, linked, with a full session |
| `AccountEffects.GoogleUpgradeGrant` | app/services/auth.py:448-569 | a new subject makes the calling guest the full account under the address, linked, with a full session |
| `AccountEffects.GoogleRelinkGrant` | app/services/auth.py:448-569 | a new subject is linked to the calling full account, which stays as it is, with a full session |
| `AccountEffects.QrGrant` | app/api/qr.py:306-339 | a QR session for that restaurant and the short time, of the caller's account as it was read or of a new guest |
| `AccountEffects.GuestReplacedIsExact` | app/api/qr.py:306-339 | QR entry ends the caller's session if it is a guest's, and no other session |
| `AccountEffects.PromotionIsExact` | scripts/create_admin.py:78-128 | the promotion leaves an open full account with a password under the address and revokes exactly its sessions |
| `CredentialRuns.RevocationStaysComplete` | app/services/auth.py:62-115 | over any run, no state has an active device on a revoked session exactly as long as no step is one of the two exceptions below, each judged in the state it meets |
| `CredentialRuns.StepKeepsRevocation` | app/services/auth.py:62-115 | of all steps exactly two kinds leave an active device on a revoked session: a promotion of an account with an active device, and a registration that succeeds on a session revoked meanwhile |
| `CredentialRuns.RevocationCompleteAfterClaim` | app/services/push.py:669-725 | from any reachable state, after the next claim the property holds again for as long as no exception occurs |
| `CredentialRuns.PromotionLeavesDevices` | scripts/create_admin.py:120-127 | the promotion keeps that exactly when the account has no active device |
| `CredentialRuns.LateRegistrationLeavesDevice` | app/services/push.py:147-347 | a late successful registration keeps that exactly when its session is not revoked meanwhile |
| `CredentialRuns.ClaimRepairs` | app/services/push.py:669-725 | after any claim no active device is on a revoked session |
| `RevocationWitnesses.PromotionCanLeaveADevice` | scripts/create_admin.py:120-127 | for any limits with room for a device, a run from empty tables whose promotion leaves a device behind |
| `RevocationWitnesses.LateRegistrationCanLeaveADevice` | app/services/push.py:147-347 | likewise a run in which the account logs out everywhere while its registration is under way |
| `Bystanders.BystandersUntouched` | app/services/auth.py:62-673 | no call on accounts, with a principal of any age, touches an account, identity, session, device or delivery of anyone but its caller and the account its credentials name |
| `Grants.GrantsWork` | app/services/auth.py:271-625 | a refused call changes nothing; a granted one adds at most the one session it names, and its access and refresh token are accepted at once, except exactly after a QR entry on an outdated principal |
| `Grants.ReplacedSessionIsDead` | app/services/auth.py:76-147 | a granted upgrade, sign-in or guest QR entry leaves the caller's previous session revoked and without an active device |
| `Grants.GivenUpTokenDies` | app/services/auth.py:92-115 | a granted Google sign-in also ends the caller's own session under the refresh token that it gives up |
| `AccountSteps.Call` | app/services/auth.py:271-673 | a service call on the tables, in any state of the system, is one step of the system, keeps the invariant, and gives its caller the three promises above |
| `ChatRuns.RepliesAgree` | app/services/messaging.py:460-601 | all successful sends under one client id return the same message and have the same content |
| `ChatRuns.OneMessagePerKey` | app/models.py:640-650 | at most one message per conversation, sender and client id in every reachable state |
| `ChatRuns.KeyDecidesAnswer` | app/services/messaging.py:460-578 | the stored message answers both transactions of a send: same content is replayed, other content refused, nothing written; only a refused attachment comes first, at the look-up |
| `ChatRuns.SuccessesHadTheirMediaChecked` | app/services/messaging.py:489-512 | in no run does a send with an attachment succeed unless the asset it read was the sender's own, uploaded for a message, and of the type its kind asks for |
| `ChatRuns.NoLateRows` | app/services/push.py:406-462 | no outbox row of a message appears after its commit |
| `ChatRuns.AudienceIsFixedAtCommit` | app/services/push.py:406-462 | after any further run a message has at most one row per device, only for devices of the audience at commit |
| `ChatInvariant.InsertReachesAudience` | app/services/push.py:406-462 | at commit every device of the audience, and no other, has exactly one row; `FanOut.MessageNotifiesTheOthers` says who the audience is |
| `FanOut.MessageNotifiesTheOthers` | app/services/push.py:406-462 | a new message queues one pending row, due at once and addressed to the device's user, for each active device on the channel of another participant whose account is open and whose own session is neither revoked nor over, and none for the sender or outsiders; the message is stored as sent, its conversation touched, the sender up to date |
| `FanOut.PushArrives` | app/services/push.py:406-935 | end to end: the message's row for such a device is taken by the next claim with room, cleared, handed over and recorded sent |
| `ChatRuns.LookUpIsExact` | app/services/messaging.py:481-535 | outsiders are turned away, and a send goes on exactly for a participant whose attachment is in order and whose client id is new |
| `PushService.RegisterDevice` | app/services/push.py:147-367 | configuration, eligibility, rate, environment and cap errors, otherwise sweep, merge, rebind |
| `PushService.UnregisterDevice` | app/services/push.py:370-395 | deactivates the user's devices of the installation one by one, with their deliveries |
| `PushService.DeactivateSessionDevices` | app/services/push.py:100-144 | deactivates the selected active devices with their deliveries and counts them |
| `PushService.CancelDeviceDeliveries` | app/services/push.py:73-97 | cancels what is in flight for one device, but for one excluded delivery |
| `PushService.EnqueueMessageNotifications` | app/services/push.py:406-462 | adds one pending row per audience device; whose those are and what the rows say: `FanOut.MessageNotifiesTheOthers` |
| `PushService.CancelExpiredSessionDeliveries` | app/services/push.py:669-725 | deactivates inactive devices and cancels what has no valid device |
| `PushService.ClaimPushDeliveries` | app/services/push.py:728-819 | sweeps, fails exhausted rows, leases the oldest claimable rows up to the batch size, a fresh lease each; which rows, in which order, and what becomes of every other: `ClaimEffects.ClaimTakesWhatIsDue`, `ClaimEffects.ClaimDecidesEveryRow` |
| `PushService.ClaimIsCurrent` | app/services/push.py:822-844 | decides whether the claim's lease and binding still stand; exactly when: `DispatchEffects.CheckIsExact`, `DispatchEffects.UndisturbedClaimIsCleared` |
| `PushService.FinishDelivery` | app/services/push.py:847-917 | settles the leased row, drops an invalidated device, otherwise nothing; which answer leads where and when a row is due again: `DispatchEffects.FinishIsExact` |
| `PushService.DispatchClaimedDelivery` | app/services/push.py:920-935 | hands over only a current claim and finishes the others as failed; an ordinary claim is sent: `DispatchEffects.ClaimedRowIsSent` |
| `PushService.PurgeTerminal` | app/services/push.py:938-966 | deletes the oldest terminal rows before the cutoff, up to the batch size |
| `SessionService.Authenticate` | app/dependencies.py:42-75 | acceptance of access-token claims |
| `SessionService.RegisterUser` | app/services/auth.py:271-349 | new account or compare-and-set upgrade of the current guest, with revocation |
| `SessionService.LoginGoogle` | app/services/auth.py:384-569 | known and new identities, relink, upgrade, replacement of the current session |
| `SessionService.RotateRefresh` | app/services/auth.py:572-625 | exchanges a live token for a fresh one |
| `SessionService.RevokeSessions` | app/services/auth.py:628-673 | logout of everything, of a token's session, or of one session |
| `SessionService.EnterByQr` | app/api/qr.py:306-339 | replaces a guest credential and issues a QR session |
| `SessionService.ProvisionAdmin` | scripts/create_admin.py:78-128 | creates or promotes the account and revokes its sessions |
| `ChatService.Insert` | app/services/messaging.py:537-601 | stores message and outbox rows together, or rolls back and replays on a unique violation |
| `ChatService.LookUp` | app/services/messaging.py:481-535 | participant check, attachment checks, replay of a stored client id |
| `OrderCardRuns.SuccessesAgree` | app/services/cart.py:593-738 | for any interleaving with cart and menu changes, all successful calls under one key return the same card and have the same fingerprint |
| `OrderCardRuns.OneOrderPerKey` | app/models.py:518-521 | at most one order per user and key |
| `OrderCardRuns.StoredOrderDecides` | app/services/cart.py:716-738 | once an order exists it never changes and stays the only one of its key; every later look-up and commit under the key is answered from it, another fingerprint is refused |
| `OrderCardRuns.AnswersAfterStored` | app/services/cart.py:593-692 | every call that ends later under the key gets that decision, except exactly those whose build step fails against the menu of that moment |
| `OrderCardRuns.LateBuildCanMissTheOrder` | app/services/cart.py:616-622 | a run in which one of two equal calls stores the order and the other is told that the restaurant is gone |
| `OrderCardRuns.OrdersAddUp` | app/services/cart.py:625-692 | every stored order is a bill: one item for each line, each line's total its price times its quantity, the amount their sum, or unknown exactly if a line has no price |
| `OrderCardRuns.CommittedOrderBillsTheCart` | app/services/cart.py:645-692 | what a commit stores bills exactly the rows of the cart that the call had loaded, for its user, restaurant, key and fingerprint |
| `Billing.BuiltCardBills` | app/services/cart.py:482-590 | a card bills every cart row at the price the guest saw times its quantity, with their sum, unknown exactly if a row has no price, and asks the kitchen for the codes it understands, once each, in the order of their first occurrence |
| `Billing.CartViewBills` | app/services/cart.py:156-209 | the cart view bills in the same way the rows whose item still exists |
| `Billing.ConflictsExact` | app/services/cart.py:503-520 | exactly what is wrong with the rows is reported: gone, sold out, or another price than the guest saw |
| `Billing.RefusalsInOrder` | app/services/cart.py:482-530 | which refusal it is: restaurant, cart version, menu revision, empty cart, review, in this order |
| `OrderCards.CardShowsTheCart` | app/services/cart.py:482-590 | a card is built exactly when the cart is current, non-empty and unchanged row by row, and then shows the lines and amount of the cart view |
| `OrderCards.CollectedExact` | app/services/cart.py:535-550 | every request code once, and the codes in the order of their first positions, within a row and across rows |
| `OrderCards.BuildOrderCard` | app/services/cart.py:482-590 | version, revision, empty-cart and review errors with the exact conflicts, otherwise the card, whose amounts over the rows are in `Billing.BuiltCardBills` |
| `OrderCards.SerializeCart` | app/services/cart.py:156-209 | the cart view's lines and subtotal, unknown as soon as one price is; over the rows: `Billing.CartViewBills` |
| `OrderCards.OrderBook.Prepare` | app/services/cart.py:593-692 | replay, build error, or one stored order |
| `OrderCards.OrderBook.InsertOrder` | app/services/cart.py:645-692 | commit of a built card, with rollback and replay on a unique violation |
| `Upsert.BatchesExact` | scripts/import_jeju_catalog.py:679-759 | a successful batched upsert, for any batch size, equals the row-by-row upsert, and it succeeds exactly when that does and no row wants a handle that an earlier row of its batch still holds |
| `Upsert.AppliedUpserts` | scripts/import_jeju_catalog.py:720-759 | after an upsert every desired row has the source's handle and managed fields, its cover if the source has one, and keeps everything else that was stored; every other row is untouched |
| `Upsert.OutcomeIsExact` | scripts/import_jeju_catalog.py:734-754 | a row counts as inserted exactly if it is new, and as updated exactly if a managed field, the handle or a given cover differs from what is stored |
| `Upsert.WritesNeverCollide` | scripts/import_jeju_catalog.py:756-759 | the bulk writes of an accepted batch never violate a unique constraint on the way, in any order |
| `Upsert.BatchSizeCanRefuse` | scripts/import_jeju_catalog.py:710-731 | two rows that pass one by one and are refused together |
| `Upsert.SettledRunsAgain` | scripts/import_jeju_catalog.py:740-752 | over a table that already holds the rows, any batched run writes nothing and reports every row unchanged |
| `Upsert.UpsertBatch` | scripts/import_jeju_catalog.py:679-759 | prefetch, compare, collect, write: table, inserted ids, changed scopes and counts of one batch; what is stored and when a row counts as updated: `Upsert.AppliedUpserts`, `Upsert.OutcomeIsExact` |
| `CatalogImport.ImportIsRowByRow` | scripts/import_jeju_catalog.py:901-1077 | the same for the whole import of restaurants, categories and items |
| `CatalogImport.RevisionsExact` | scripts/import_jeju_catalog.py:1064-1077 | menu revision goes up by exactly one for each existing restaurant of whose menu a row appeared or changed, by zero for the others, and is one for new restaurants |
| `CatalogImport.RestaurantsFollowSource` | scripts/import_jeju_catalog.py:613-667 | after a successful import every place is listed with the source's name, category, address, phone and position, and keeps its owner and rating |
| `CatalogImport.CategoriesFollowSource` | scripts/import_jeju_catalog.py:766-834 | every place with a menu has its active category |
| `CatalogImport.ItemsFollowSource` | scripts/import_jeju_catalog.py:866-898 | the first row of every product is on the menu with the source's name, description, availability and position, and with its price if that lies in 1 to 500,000 |
| `CatalogImport.StripCutsBlanks` | scripts/import_jeju_catalog.py:613-667 | texts lose the blanks at their ends and nothing else |
| `CatalogImport.RerunChangesNothing` | scripts/import_jeju_catalog.py:720-834 | the same source right after an applied run succeeds with any batch size, reports every row unchanged and leaves the tables as they are |
| `CatalogImport.EveryRowIsAccountedFor` | scripts/import_jeju_catalog.py:1021-1061 | selected rows are imported, without product id, or repeats, and nothing else |
| `CatalogImport.UnknownPricesAreExplained` | scripts/import_jeju_catalog.py:857-864 | the imported unknown prices are the invalid ones, which are counted as normalised, and those that the source does not give |
| `CatalogImport.FirstOccurrenceWins` | scripts/import_jeju_catalog.py:1035-1041 | the first row of every product is imported |
| `CatalogImport.OnlyFirstOccurrences` | scripts/import_jeju_catalog.py:1035-1041 | every imported item is the first row of its product |
| `CatalogImport.CoverIsKept` | scripts/import_jeju_catalog.py:742-749 | a restaurant keeps its cover when the source has none |
| `CatalogImport.ImportMenuItems` | scripts/import_jeju_catalog.py:1021-1061 | streams, skips, deduplicates and upserts in batches: succeeds exactly when ids are numeric and the batches succeed, with exact counters |
| `CatalogImporter.Catalog.IncrementMenuRevisions` | scripts/import_jeju_catalog.py:1064-1077 | bumps each changed restaurant that is not new, once |
| `CatalogImporter.Catalog.Import` | scripts/import_jeju_catalog.py:1080-1113 | refuses, in this order, exactly the unsupported regions, unsafe environments and batch sizes below one; otherwise commits the whole import under the normalised region or leaves every table as it was, on failure and on dry runs |
| `OpeningHours.RowsMeanArcs` | app/services/catalog.py:1045-1076 | for all hours tables and instants, open means inside a union of half-open arcs on the week's circle, or no hours at all |
| `OpeningHours.ArcMeaning` | app/services/catalog.py:1058-1076 | today's and yesterday's tests together are membership in the row's arc; past midnight wraps, equal times are the whole calendar day |
| `OpeningHours.SqlAgreesWithRows` | app/services/catalog.py:763-833 | the database predicate agrees for every published restaurant; in general it agrees exactly when the zone is covered, there are no hours, or the restaurant is closed |
| `OpeningHours.UnpublishedZoneIsMissed` | app/services/catalog.py:775-783 | an unpublished restaurant for which the two differ |
| `Compatibility.SupportedExact` | app/services/catalog.py:201-230 | a diet is supported exactly when some sound claim implies it |
| `Compatibility.DietsAgree` | app/services/cart.py:366-380 | both assessors rely on the same diets, in any order of the claims |
| `Compatibility.CartIsItsWorstItem` | app/services/cart.py:362-471 | a non-empty cart's status is the worst of its items' statuses |
| `Compatibility.CartConflictIsCatalogConflict` | app/services/catalog.py:218-313 | a cart conflict is always a catalog conflict; without avoided ingredients also conversely |
| `Compatibility.CartCompatibleInCatalog` | app/services/catalog.py:174-198 | an item the cart accepts is a conflict in the catalog exactly when it has a descendant of an avoided ingredient, and compatible there otherwise |
| `Compatibility.AssessorsAgree` | app/services/cart.py:338-471 | for every passport and item the two statuses are equal exactly unless an avoided ingredient is contained only through a descendant, or the catalog is satisfied while a last negative link is weak or an avoided ingredient has no covering diet in the cart's table |
| `Compatibility.AssessorsAgreeButForLastLinks` | app/services/cart.py:417-460 | without avoided ingredients the two differ exactly when the catalog is satisfied and the last negative link of some allergen is weak; the cart is then in doubt |
| `Compatibility.DairyIsCoveredOnlyInTheCatalog` | app/services/cart.py:392-399 | a vegan item without ingredients that the catalog accepts and the cart does not, for a guest who avoids dairy |
| `Compatibility.LaterWeakLinkDecidesInTheCart` | app/models.py:421-427 | an item with a sound and then a weak negative link of one allergen, which the catalog accepts and the cart does not |
| `Compatibility.MackerelIsFishOnlyInTheCatalog` | app/services/catalog.py:186-198 | an item on which the two differ |
| `Compatibility.CatalogFindingsExact` | app/services/catalog.py:218-313 | exactly which conflicts and gaps the catalog reports: positive links of avoided allergens, contained ingredients, and wishes that no sound claim or link meets |
| `Compatibility.CartReasonsExact` | app/services/cart.py:382-471 | a reason stands at a position exactly if the item there gives it: an allergen or ingredient it has, or missing evidence |
| `Compatibility.CatalogCompatibility` | app/services/catalog.py:218-313 | the catalog's status, conflicts and missing evidence |
| `Compatibility.CartCompatibility` | app/services/cart.py:338-471 | the cart's status and reasons |
| `Compatibility.ExpandedDietClaims` | app/services/catalog.py:201-215 | the verification noted for every claimed or implied diet |
| `Cursor.CursorRoundTrip` | app/utils.py:56-76 | for every integer, decoding its cursor gives it back exactly when it is in 0..1,000,000 and refuses it otherwise |
| `Cursor.BytesRoundTrip` | app/utils.py:56-66 | unpadded base64url decodes to the bytes that were encoded, for all bytes |
| `Cursor.PagingDeliversTheList` | app/services/catalog.py:1173-1209 | following the cursors ends and delivers exactly the list if and only if it is no longer than the offsets reach; otherwise it is refused after exactly that prefix |
| `Ownership.ReconciliationSettles` | migrations/versions/e71c943a0fb2_unique_active_restaurant_owner.py:68-136 | after a successful reconciliation the active owner memberships of every restaurant are exactly its recorded owner |
| `Ownership.OwnersUniqueForGood` | app/services/admin.py:306-432 | and stay so under every later sequence of applications and reviews |
| `Ownership.OwnersStayUnique` | app/services/admin.py:333-396 | reviews keep owners unique and never take a restaurant from its owner |
| `Ownership.FinalApplicationsStand` | app/services/admin.py:317-324 | an approved or rejected application never changes again |
| `Ownership.ApprovalExact` | app/services/admin.py:326-374 | while owners are unique, exactly when an approval succeeds |
| `Ownership.ReviewWrites` | app/services/admin.py:375-418 | a review records its decision, note and time; an approval also makes the applicant the active owner of the verified restaurant with the role, any other decision grants nothing |
| `Ownership.OwnerDesk.Reconcile` | migrations/versions/e71c943a0fb2_unique_active_restaurant_owner.py:23-136 | refuses exactly the ambiguous tables, unchanged, and reconciles all others |
| `Ownership.OwnerDesk.ReviewOwnerApplication` | app/services/admin.py:300-432 | every error of a review leaves the tables alone; otherwise grant and record |
| `RateLimit.AcceptanceIsExact` | app/rate_limit.py:23-39 | the pruned queue accepts exactly when the full history has fewer than the allowed events in the window that ends now |
| `RateLimit.NoWindowOverflows` | app/rate_limit.py:23-39 | no half-open window of that length, wherever it lies, holds more accepted events than allowed |
| `RateLimit.SlidingWindowLimiter.Check` | app/rate_limit.py:23-39 | prunes, decides and appends in place |

## Left out

- APNs HTTP, provider tokens, JWT signing, Google token verification, password hashing, media files: foreign calls; their outcomes are parameters.
- HTTP routing, cookies, headers, response serialisation, admin pages, audit rows, seed data: plumbing without further state.
- Titles, bodies and payloads of push notifications, locales, display names, roles of accounts, `last_used_at`, APNs ids: written but never read by the modelled code.
- Creation of conversations checks no restaurant or existing pair here; a conversation is a set of participants.
- Liveness beyond `OutboxTheorems.ClaimServesAllDue`: nothing says that a worker polls.
- Effects of statements inside one transaction on concurrent transactions: each transaction is one step; PostgreSQL's row locks appear only as the rows a claim skips.
- Claims on SQLite: the database there has no row locks to skip, which is the case of an empty set of locked rows.
- Retry-delay promises beyond the formula of the code: an explicit smaller Retry-After wins in the code.
- OrderCards.BuildOrderCard: names, phrases, notes, currency and the compatibility assessment of a card are not modelled, because they are copied; the assessment is modelled on its own in Compatibility.
- CatalogImport.ImportMenuItems: a price that is no integer counts as out of range.
- CatalogImporter.Catalog.Import: loading and validating the two source databases, whose outcome does not depend on the tables, is a precondition.
- CatalogImport.NumericIdentifier: strips ASCII blanks only; region names are lowered as ASCII.
- Compatibility.CartCompatibility: codes and relation types are taken as normalised, and the order and the wording of reasons are left out.
- Compatibility.CatalogCompatibility: conflicts and missing evidence are sets: their order, labels and repetitions are left out.
- Invariant.SoundMeetsSchema: the foreign keys of a QR session to its restaurant and of a message to its media asset lead to tables that are not modelled.
- Cursor.ParseInt: refuses bytes outside ASCII, while the library also accepts other decimal digits; encoding a number of more than 4,300 digits, which the library refuses, is not modelled as an error.
- Cursor.PageOf: the list of matches is given and does not change between pages; distances and their sorting are left out.
- OpeningHours.LocalMoment: the zone database is a table from names to wall-clock moments; daylight-saving rules are inside it.
- Ownership.Review: a unique violation at commit cannot happen in a single step and has no branch; audit rows are left out.
- SQL text search, facets, overview counters, menus, reviews, saved restaurants, cart editing, QR code administration, the JSON importer: easy or bound to the database.
