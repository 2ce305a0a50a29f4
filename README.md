# Subscription entitlement reconciliation, modelled in Dafny

This project models the entitlement logic of the Cloud Functions backend in
`functions/index.js`. The logic has four parts.

- **Receipt normaliser** (`AppleReceipt`, `apple.dfy`). The App Store
  production/sandbox fallback. The reduction of a verified receipt's
  transaction list to one `Entitlement{active, expiresAt, productId}`:
  filter by product, pick the record with the largest
  `expires || purchase` key with a strict `>` fold, then derive `active`, the
  ISO expiry and the product id fallback.
- **Play activity rule** (`PlayBilling`, `play.dfy`). An Android
  subscription is active iff its expiry lies strictly after `now`.
- **Pair store** (`PairStore`, `pairs.dfy`). A `Store` class holds the
  `users` and `pairs` collections as maps. `RecomputePairPlusState` derives a
  pair's shared entitlement (`plusActive`, `plusOwnerUid`) from its members
  in the order the batch lookup returns them. It writes only when the stored
  values differ, and it has its own branch for a pair without members.
  `SyncUserEntitlement` merges `isPlus` into a user record and reconciles that
  user's pair. Each method is specified by a pure step function
  (`ReconcileStep`, `SyncStep`). The fixed-point, idempotence and pair
  invariant lemmas are proved about those step functions.
- **Endpoint decision** (`Endpoint`, `endpoint.dfy`). `Decide` gives the
  outcome of `verifyPurchase` for a POST request: the reply, the storefront
  calls issued, and the flag synced for the caller. Its inputs are the
  authentication outcome, the request fields, the configuration and the
  storefront answers. `VerifyPurchase` applies that decision to a `Store`.

Conventions. A JavaScript value that is absent or falsy is `""` for strings
and `0` for timestamps (milliseconds, `nat`). The clock `Date.now()` is a
parameter `now`. `serverTimestamp()` is a parameter `stamp`. The text
`new Date(ms).toISOString()` is the symbolic value `IsoOf(ms)`. The order in
which the `documentId() in memberUids` lookup returns member records is a
parameter `order`. `IsBatchOrder` requires it to list each existing member
exactly once. The stored `plusOwnerUid` has three states: absent, null, or a
uid. The change test at `functions/index.js:70` uses `===`, which tells absent
and null apart. The empty-pair test at line 40 uses `!= null`, which does not.

Authentication has two failure outcomes. A missing or malformed
`Authorization` header yields `null` and 401. A token that `verifyIdToken`
rejects throws, and the catch-all turns that into 500 "Internal error"
(`functions/index.js:28`, `298-300`). `Decide` models the second outcome as
`TokenRejected`.

## Model

| member | source | states |
|---|---|---|
| `Common.IsoOrNull` | functions/index.js:165 | the ISO expiry is null exactly when the timestamp is absent (0), and otherwise carries that timestamp |
| `AppleReceipt.VerifyAppleReceipt` | functions/index.js:119-135 | production is always called first; the sandbox is called at most once, and only when production answers 21007; then the sandbox answer is returned, otherwise production's answer is returned unchanged |
| `AppleReceipt.Matching` | functions/index.js:145-147 | a record is in the filtered list iff it is in the list and carries the requested product id (any record when none is requested); every kept record carries it; the result is never longer than the list |
| `AppleReceipt.ResolveAppleEntitlement` | functions/index.js:159-165 | an active entitlement always has an ISO expiry later than `now` (a missing expiry is never active) |
| `AppleReceipt.TransactionListChoice` | functions/index.js:140-143 | the transactions are `latest_receipt_info` whenever it is present, even empty; `receipt.in_app` only when it is absent; none when both are absent; a present but empty `latest_receipt_info` hides `receipt.in_app` and gives the inactive answer |
| `AppleReceipt.LatestIsFirstMaximum` | functions/index.js:153-157 | the strict-`>` reduction returns a surviving record whose key `expires \|\| purchase \|\| 0` is at least every surviving record's key, and every surviving record before it has a strictly smaller key (ties keep the earliest) |
| `AppleReceipt.NoMatchIsInactive` | functions/index.js:140-151 | when no record of the list survives the filter (including an empty list), the answer is exactly `{active:false, expiresAt:null, productId:null}`, whatever the rest of the response holds |
| `AppleReceipt.ResolvedFromSelected` | functions/index.js:153-167 | otherwise the answer comes from the selected (first maximal) record: active iff its expiry is after `now` and it has no cancellation; `expiresAt` null iff its expiry is absent; product id falls back record, then requested, then null |
| `AppleReceipt.ResolvedProductIsRequested` | functions/index.js:145-166 | with a requested product id, the reported product id is that id or null, and it is that id exactly when some transaction carries it |
| `AppleReceipt.ActiveHasUnexpiredRecord` | functions/index.js:159-161 | an active answer is backed by a surviving record in the list that expires after `now` and was never cancelled |
| `PlayBilling.AndroidEntitlement` | functions/index.js:283-293 | active iff the expiry is strictly after `now`; `expiresAt` is null iff the expiry is absent (0) and otherwise carries it, also for an expired subscription; the product id is the requested one |
| `PlayBilling.AndroidActivityRule` | functions/index.js:283-284 | active iff expiry > now: the boundary `expiry == now` is inactive, an absent expiry is never active, and activity at some instant implies activity at every earlier one |
| `PairStore.BatchReadIsTheMembers` | functions/index.js:51-54 | the `in` lookup returns every existing member exactly once (ids pairwise distinct), no non-member and no missing user, each document carrying that user's current record |
| `PairStore.Derive` | functions/index.js:56-66 | the derived pair is Plus exactly when it has an owner |
| `PairStore.DeriveMeaning` | functions/index.js:56-66 | the derived `plusActive` is true iff some returned member has `isPlus`; the owner is the first such member in returned order, and null when there is none |
| `PairStore.DerivePlusState` | functions/index.js:56-66 | the accumulator loop computes exactly the reference derivation `Derive` of the returned documents |
| `PairStore.DeriveReadsOnlyIsPlus` | functions/index.js:58-66 | the derivation depends only on the documents' ids and `isPlus` flags |
| `PairStore.LookupOrderIrrelevantWithOnePlusMember` | functions/index.js:51-66 | with at most one Plus member, every lookup order derives the same state |
| `PairStore.OwnerFollowsLookupOrder` | functions/index.js:51-66 | with two Plus members, two valid lookup orders of the same store derive different owners: the owner is the storage layer's choice |
| `PairStore.WithPlusState` | functions/index.js:75-80 | the write sets the derived `plusActive` and `plusOwnerUid`, clears `plusGraceUntil`, and keeps the member list |
| `PairStore.ReconcileStep` | functions/index.js:31-81 | reconciliation changes no pair but the one named, keeps the set of pairs, leaves everything unchanged when it does not write, and never changes a pair's member list |
| `PairStore.ReconcileWritesIffUnsettled` | functions/index.js:35-80 | a missing pair causes no change; otherwise a write happens iff the stored pair differs from the derived state (for an empty pair: iff it is not already `plusActive == false` with no owner), a write clears `plusGraceUntil` and stamps `updatedAt`, the write that empties a pair stores `plusActive: false` with an explicit null owner (not an absent one), and afterwards the pair is settled |
| `PairStore.ReconcileEstablishesPairInvariant` | functions/index.js:39-80 | after reconciliation, a pair with members is Plus iff some existing member is Plus, is owned by the first Plus member in lookup order, and has a null owner when not Plus; a pair without members is not Plus and has no owner |
| `PairStore.ReconcileIdempotent` | functions/index.js:39-73 | with users unchanged and the same lookup order, a second reconciliation right after the first performs no write, in both the empty-members and the members branch |
| `PairStore.MergeIsPlus` | functions/index.js:86-92 | the merge sets `isPlus` and `updatedAt` on the user, creates the record when it is missing, keeps its `pairId`, and leaves every other user untouched |
| `PairStore.SyncStep` | functions/index.js:83-99 | the users after a sync are exactly the merge of `isPlus` and the stamp into the caller's record (so its `pairId` is kept and no other user changes or appears); the set of pairs is unchanged |
| `PairStore.SyncReconcilesOwnPair` | functions/index.js:94-98 | with a `pairId`, the pairs after sync are exactly one reconciliation step of that pair over the merged users, and the write flag is that step's; with none, the pairs are unchanged and nothing is written; every other pair is left as it was |
| `PairStore.SyncEstablishesPairInvariant` | functions/index.js:83-99 | after a sync, the user's pair with members is Plus iff some existing member is Plus under the updated users (so a member synced to Plus makes it Plus), and has a null owner when not Plus; a pair without members ends not Plus with no owner |
| `PairStore.SyncTwiceSettles` | functions/index.js:83-99 | a second sync of the same flag with the same lookup order writes no pair, leaves the pairs as the first sync left them, and changes the user only in `updatedAt` |
| `PairStore.Store.RecomputePairPlusState` | functions/index.js:31-81 | the method leaves users untouched and brings the pairs collection to exactly `ReconcileStep` of the old store, reporting whether it wrote |
| `PairStore.Store.SyncUserEntitlement` | functions/index.js:83-99 | the method brings the store to exactly `SyncStep` of the old store, reporting the pair it reconciled and whether it wrote |
| `Endpoint.Decide` | functions/index.js:209-297 | a flag is synced exactly for the replies that carry an entitlement, only for an authenticated caller, and it equals the reply's `active`; every non-200 reply is inactive and issues no storefront call |
| `Endpoint.EarlyExits` | functions/index.js:210-297 | no token gives 401, a rejected token 500, a missing field 400, a missing App Store shared secret or Play configuration 500 with its own message, an unsupported platform 400, each without a storefront call or a sync |
| `Endpoint.AppleBranch` | functions/index.js:228-261 | on iOS: the sandbox is called only after 21007; a non-zero final status replies inactive without syncing; status 0 replies with exactly the normalised entitlement of the final response and the request's verification source, syncs its flag, and reports the requested product id or null |
| `Endpoint.GrantNeedsCurrentPurchase` | functions/index.js:237-293 | a caller is granted Plus only on a transaction for the requested product that expires after `now` and is not cancelled (iOS, final status 0), or on a subscription expiring after `now` (Android) |
| `Endpoint.AndroidStatusText` | functions/index.js:276-293 | on Android exactly one Play call is made; the reply carries the Android entitlement for the reported expiry and requested product; the caller is synced to exactly `expiry > now`; the status is "expired" iff the expiry is at or before `now` |
| `Endpoint.VerifyPurchase` | functions/index.js:209-297 | the endpoint returns the decided reply; it changes nothing in the store when no flag is synced, and otherwise leaves the store as `SyncStep` for the caller and that flag |

## Left out

- HTTP handling: CORS headers, the OPTIONS and 405 branches, and JSON serialisation (functions/index.js:13-21, 196-207). The reply is a datatype.
- Parsing of the `Authorization` header and the identity service call (functions/index.js:23-29). They are reduced to their three outcomes: no token, rejected token, uid.
- The network calls to the App Store and the Play publisher API, with the service-account authentication (functions/index.js:119-132, 170-194). Their answers are inputs. Transport, parse and authentication failures of these calls, and document-store failures, all end in the catch-all 500 reply in the code. They are not modelled.
- The `onWrite` trigger `syncPairPlusState` (functions/index.js:101-106). Repeated triggering is covered by `ReconcileIdempotent` on sequential calls only.
- Concurrency between invocations, and races between the member read and the pair write.
- Configuration and environment lookup (functions/index.js:229-231, 265-270). The configured values are inputs.
- `Number(...)` coercion. Timestamps arrive parsed, with 0 for absent. So the JavaScript truthiness of the string `"0"` in the key `expires || purchase` is not modelled.
- An absent Apple `status` field. The model's status is always an integer.
- The store's limit on the number of ids in one `in` lookup. Document ids are assumed non-empty, so `!plusOwnerUid` means "not yet set".
- Record fields other than the ones listed in `User` and `Pair`. The merges touch only the fields shown, so the others cannot change.
- `PairStore.ReconcileIdempotent`, `PairStore.SyncTwiceSettles`: both assume the lookup returns members in the same order on both calls. With two Plus members and a changed order, the owner changes (`OwnerFollowsLookupOrder`).
