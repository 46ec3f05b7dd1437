# Identity registry and route gate of the storefront, in Dafny

This project models the identity registry of the storefront's user service and the role gate that sits on top of it.

The registry keeps two counter documents, `customerCounter` and `franchiseCounter`, and a `users` collection keyed by user id. A user id is a category prefix (`cu` for customers, `fr` for franchises) followed by the allocated number, left-padded with `0` to at least six digits. The registry:

- allocates ids;
- classifies an id by its prefix;
- creates customers after a duplicate-email check;
- merges profile updates, pinning the category to the id's prefix;
- stamps the active status;
- moves a record between a `cu` id and an `fr` id, keeping a reversible trail in `previousId` and `previousFranchiseId`.

The route gate decides, from the required role and the logged-in user's category, whether a page renders or redirects.

Files, one module each:

- `wrappers.dfy`: `Option` and `Result`.
- `user_ids.dfy` (`UserIds`): decimal rendering and `padStart`, `FormatUserId`, its decoding, and `DetectCategory`.
- `documents.dfy` (`Documents`): a document is a map from field name to a JavaScript value. The object spread `{...a, k: v}` is the map union `a + map[k := v]`. Also here: truthiness, and the documents that create, upgrade and revert write.
- `user_store.dfy` (`UserStore`): the database as a value `Store`, and each operation as one atomic step `Store -> (Store, Result)`. This module holds the properties: monotone and distinct allocation, fresh keys for each allocating step, exactly one record moved, the round trips, the category invariant over any run, and the email finding.
- `user_service.dfy` (`UserService.Registry`): a class whose fields are the counters and the users map. Its methods follow the source's steps: look up, check, allocate, build the document, set, then delete. Each method is proved to have exactly the effect of the matching step in `UserStore`.
- `protected_route.dfy` (`ProtectedRoute`): the gate as a function with a three-way outcome.

The model takes some inputs as parameters instead of computing them:

- **Clock:** the server timestamp is a parameter `now`.
- **Write outcome:** for createUser, upgradeToFranchise and revertToCustomer, whether the store commits the final write or move transaction is a parameter `committed`. The other store failures are listed under "## Left out".
  - A failed write leaves the `users` collection unchanged.
  - A number already allocated stays consumed. `createUser` and `upgradeToFranchise` both allocate before they write (`src/services/userService.js:74`, `:174`).

Behaviour of the code worth noting:

- **Duplicate-email check:** the code compares the stored email, kept as entered, with the lower-cased input. See Findings.
- **Reusing a franchise id:** an upgrade reuses `previousFranchiseId` only when it is a string starting with `fr`. A truthy non-string value makes `startsWith` throw, and the upgrade fails.
- **Order of checks:** the user document is loaded before the category is checked. A missing document therefore reports "not found", whatever its id.
- **Counter selection:** any category string other than `cu` selects the franchise counter.
- **Key freshness:** an upgrade moves the record to `previousFranchiseId` and a revert to `previousId` without checking that the key is free. createUser copies every supplied field (`src/services/userService.js:78`) and updateUser merges any field, so these ids can come from callers. While the counters cover the users collection (`UserStore.NumbersCovered`: every stored `cu`/`fr` number is at most its counter), a freshly allocated key is not in use (`UserStore.AllocateFresh`, `UserStore.CreateAddsFreshRecord`, `UserStore.UpgradeAllocatesFreshKey`), but freshness of keys is not an invariant of every run: `UserStore.SuppliedLineageOverwrites` exhibits an overwrite.
- **Padding:** the suffix has at least six digits, not exactly six. Numbers from 1000000 up get seven or more.

## Model

| member | source | states |
|---|---|---|
| `UserIds.PadStart` | src/services/userService.js:43 | the result has length max(width, \|s\|), ends with s, and is filled with the pad character before it |
| `UserIds.FormatUserId` | src/services/userService.js:43 | the id starts with the category string, followed by at least six characters, all decimal digits |
| `UserIds.ParseDecimalString` | src/services/userService.js:43 | the decimal rendering of n reads back as n |
| `UserIds.ParseLeadingZeros` | src/services/userService.js:43 | zero padding does not change the value of a digit string |
| `UserIds.DecimalStringLength` | src/services/userService.js:43 | n < 10^k needs at most k digits; n ≥ 10^k needs more than k |
| `UserIds.UserIdSuffix` | src/services/userService.js:42-43 | the id's suffix decodes back to the allocated number, and is exactly six characters iff the number is below 1000000 |
| `UserIds.FormatUserIdInjective` | src/services/userService.js:43 | two formatted `cu`/`fr` ids are equal only when the category and the number are both equal |
| `UserIds.DetectCategory` | src/services/userService.js:52-57 | customer iff the id starts with `cu`; franchise iff it starts with `fr`; otherwise (including the empty id) none |
| `UserIds.DetectCategoryByPrefix` | src/services/userService.js:52-57 | the category depends only on the first two characters |
| `UserIds.DetectCategoryShort` | src/services/userService.js:53-56 | an id shorter than two characters has no category |
| `UserIds.DetectFormattedId` | src/services/userService.js:52-57 | an id formatted under a category's prefix is detected as that category |
| `Documents.CreatedDoc` | src/services/userService.js:77-86 | supplied fields are copied; each phone field is the supplied value when truthy and `''` otherwise; id, userId and category agree with the new id (customer for a `cu` id, even if the caller supplied another category); both timestamps are now |
| `Documents.Restamp` | src/services/userService.js:179-187 | a moved document keeps every other field, is stamped with the new id and its category, and has the given lineage values and updatedAt |
| `Documents.RestampTwice` | src/services/userService.js:232-240 | a second move overwrites every field the first move wrote |
| `Documents.RevertUpgradedDoc` | src/services/userService.js:228-240 | For a record whose id, userId and category fields equal its key and the key's category (as createUser and the moves write them; updateUser keeps the category so, and keeps id and userId unless its data names them): reverting an upgraded document restores every field except previousId (null), previousFranchiseId (the franchise id) and updatedAt |
| `Documents.UpgradeRevertedDoc` | src/services/userService.js:179-187 | For a record whose id, userId and category fields equal its key and the key's category (as createUser and the moves write them; updateUser keeps the category so, and keeps id and userId unless its data names them): upgrading a reverted document restores every field except previousId (the customer id), previousFranchiseId (null) and updatedAt |
| `UserStore.Allocate` | src/services/userService.js:23-49 | the selected counter (`cu` selects customer, anything else franchise) becomes its old value + 1, from 0 when absent; the other counter and the users are unchanged; the id is the category followed by the new count |
| `UserStore.AllocationsIncrease` | src/services/userService.js:28-40 | over any sequence of allocations, each number lies above the counter's value before and at most its value after, and numbers from one counter strictly increase |
| `UserStore.AllocationsAdvanceByOne` | src/services/userService.js:36-40 | each counter ends exactly as many above its start as the allocations it served, so with `AllocationsIncrease` a run leaves no gaps |
| `UserStore.AllocatedIdsDistinct` | src/services/userService.js:28-43 | any two allocations under `cu`/`fr` in a sequence return different ids |
| `UserStore.AllocateFresh` | src/services/userService.js:32-40 | when the counters cover the users collection, a fresh id is not yet a key, and the cover persists |
| `UserStore.WithId` | src/services/userService.js:280-284 | `{id: doc.id, ...data}`: every stored field wins over the document id |
| `UserStore.CreateStep` | src/services/userService.js:60-108 | succeeds iff the email is a non-empty string that is not registered and the write commits. "Email already exists" is returned iff the lower-cased email is stored, and then nothing changes. On success exactly one record is added, at `cu` + the next customer number, holding the created document; other records and the franchise counter are unchanged. The store failure is reported iff the email passes both checks and the write does not commit; it leaves exactly the store after allocation, with the customer number consumed |
| `UserStore.CreateAddsFreshRecord` | src/services/userService.js:74-94 | when the counters cover the users collection, createUser never overwrites a record (the collection grows by one) and the cover persists |
| `UserStore.UpdateStep` | src/services/userService.js:111-131 | fails with no change on a missing document. Otherwise the given fields are merged into that one record, other fields are kept, updatedAt is now, and category is pinned to the id's category when it has one |
| `UserStore.ActiveStatusStep` | src/services/userService.js:134-149 | fails with no change for an empty or missing id; otherwise sets isActive, lastActiveAt and updatedAt and keeps every other field and record |
| `UserStore.ReusableFranchiseId` | src/services/userService.js:171-172 | the reused franchise id exists iff previousFranchiseId is a string starting with `fr`, and is that string |
| `UserStore.UpgradeStep` | src/services/userService.js:152-203 | fails with no change to the users when the record is missing or the id is not `cu`. On success the record moves to an `fr` id: the old key is gone, the new key holds the upgraded document and nothing else changes. The new id is the reused previousFranchiseId (no counter advance) or the next franchise number. The store failure is reported iff the record exists, its id is `cu`, previousFranchiseId does not throw and the move does not commit; it leaves exactly the store after allocation: unchanged when the id is reused, the franchise counter advanced otherwise |
| `UserStore.UpgradeAllocatesFreshKey` | src/services/userService.js:173-175 | when the counters cover the users collection, an upgrade that allocates moves the record to a key nobody holds, and the cover persists whether or not the move commits |
| `UserStore.SuppliedLineageOverwrites` | src/services/userService.js:171-194 | a `previousFranchiseId` supplied with the user's data is reused as is: from a covered store, one customer's upgrade moves to `fr000001` without advancing the counter, and a second customer's allocating upgrade also gets `fr000001` and overwrites it, leaving one record for two customers |
| `UserStore.RevertStep` | src/services/userService.js:206-256 | fails with no change unless the record exists, its id starts with `fr` and previousId is a string starting with `cu`. It then moves the record to previousId, with category customer and previousFranchiseId the old id; nothing else changes and no counter moves |
| `UserStore.RevertAfterUpgradeReturnsId` | src/services/userService.js:184-249 | for any record, reverting an upgraded customer returns the customer id (from previousId), moves no counter, leaves every other record except one at the franchise id, and stores the upgraded copy reverted |
| `UserStore.RevertUndoesUpgrade` | src/services/userService.js:152-256 | reverting an upgraded customer returns the original id and leaves every other record as before, except that a record already at the franchise id is gone (this part, for any record, is `UserStore.RevertAfterUpgradeReturnsId`). For a record whose id, userId and category fields equal its key and the key's category (as createUser and the moves write them; updateUser keeps the category so, and keeps id and userId unless its data names them): the restored record equals the original except for the lineage fields and updatedAt |
| `UserStore.UpgradeAfterRevertReturnsId` | src/services/userService.js:171-196 | for any record, upgrading a reverted franchise returns the franchise id it came from (previousFranchiseId), moves neither counter, leaves every other record except one at that id, and stores the reverted copy upgraded |
| `UserStore.UpgradeAfterRevertReusesId` | src/services/userService.js:169-240 | re-upgrading a reverted franchise returns the same franchise id without advancing either counter (this part, for any record, is `UserStore.UpgradeAfterRevertReturnsId`). For a record whose id, userId and category fields equal its key and the key's category (as createUser and the moves write them; updateUser keeps the category so, and keeps id and userId unless its data names them): the record equals the original franchise record except for the lineage fields and updatedAt |
| `UserStore.ApplyKeepsCategoryPinned` | src/services/userService.js:115-119 | every operation keeps each record's category equal to the category of its id |
| `UserStore.RunKeepsCategoryPinned` | src/services/userService.js:115-119 | the category invariant holds after any sequence of operations from a store where it holds |
| `UserStore.FirstCustomerScenario` | src/services/userService.js:67-74 | an empty registry gives `cu000001` to its first customer and refuses a second account with the same email |
| `UserStore.UpgradeScenario` | src/services/userService.js:170-196 | with the franchise counter at 4, upgrading `cu000001` yields `fr000005`, removes `cu000001`, and records previousId `cu000001` |
| `UserStore.DuplicateEmailAdmitted` | src/services/userService.js:67-94 | as written, two createUser calls with `A@x.com` both succeed and store two records with the same email |
| `UserStore.FoldedCheckCoversAsWritten` | src/services/userService.js:267-270 | the case-insensitive check rejects every email the source's check rejects |
| `UserStore.CreateStepFolded` | src/services/userService.js:67-71 | createUser refuses any email stored under any letter case |
| `UserStore.FoldedCreateKeepsEmailsUnique` | src/services/userService.js:67-71 | the corrected createUser keeps stored emails unique up to case |
| `UserService.Registry.GenerateNextUserId` | src/services/userService.js:23-49 | the new counters and the returned id are those of `Allocate` on the old state |
| `UserService.Registry.GetUserByEmail` | src/services/userService.js:259-292 | a falsy email fails; a non-string email fails. Otherwise it returns a user iff one has the lower-cased email, and what it returns is such a user with its id |
| `UserService.Registry.GetUserById` | src/services/userService.js:295-312 | returns a user iff the id is a key, with the stored fields and the id |
| `UserService.Registry.CreateUser` | src/services/userService.js:60-108 | the new state and result are those of `CreateStep` on the old state |
| `UserService.Registry.UpdateUser` | src/services/userService.js:111-131 | the new state and result are those of `UpdateStep` |
| `UserService.Registry.UpdateUserActiveStatus` | src/services/userService.js:134-149 | the new state and result are those of `ActiveStatusStep` |
| `UserService.Registry.UpgradeToFranchise` | src/services/userService.js:152-203 | the new state and result are those of `UpgradeStep`: allocate, build the document, then set the new record and delete the old one |
| `UserService.Registry.RevertToCustomer` | src/services/userService.js:206-256 | the new state and result are those of `RevertStep` |
| `ProtectedRoute.Gate` | src/components/ProtectedRoute.jsx:4-23 | customer routes redirect home iff the user is not a customer; franchise routes redirect home iff the user is not a franchise; non-franchise routes go to the franchise dashboard iff a user is logged in and is a franchise; every other role renders the children |
| `ProtectedRoute.RolesExclusive` | src/context/AuthContext.jsx:207-208 | no user is both customer and franchise |
| `ProtectedRoute.GateDependsOnCategoryOnly` | src/components/ProtectedRoute.jsx:4-23 | the outcome depends only on the role, whether someone is logged in, and the category field |
| `ProtectedRoute.AnonymousVisitor` | src/components/ProtectedRoute.jsx:8-22 | an anonymous visitor is sent home from customer and franchise routes and sees every other route |
| `ProtectedRoute.GateForStoredUser` | src/context/AuthContext.jsx:207-208 | under the category invariant: a `cu` account passes customer and non-franchise routes and is sent home from franchise routes. An `fr` account passes franchise routes, is sent home from customer routes and goes to its dashboard from non-franchise routes |
| `ProtectedRoute.GateAfterMove` | src/components/ProtectedRoute.jsx:8-15 | after an upgrade the account passes franchise routes and is sent home from customer ones; after a revert, the reverse |

## Left out

- `UserStore.RevertUndoesUpgrade`: the field-by-field restoration is promised only for a record whose id, userId and category fields equal its key and the key's category (as createUser and the moves write them; updateUser keeps the category so, and keeps id and userId unless its data names them). updateUser can overwrite id and userId, (`src/services/userService.js:121-124`), and code outside the registry that writes the document directly can set category, so this is not an invariant of a run; the id round trip itself holds for any record (`UserStore.RevertAfterUpgradeReturnsId`).
- `UserStore.UpgradeAfterRevertReusesId`: the same hypothesis on the franchise record; the id round trip holds for any record (`UserStore.UpgradeAfterRevertReturnsId`).
- `UserStore.AllocationsAdvanceByOne`: exact below 2^53 only, for the same reason as `AllocationsIncrease`.
- `UserIds.DetectCategory`: a missing id (`null` or `undefined`) is represented by the empty string. The source treats both alike.
- `UserStore.AllocationsIncrease`: counters are unbounded integers. The source's `currentCount + 1` (`src/services/userService.js:36`) is a JavaScript double, which stops increasing past 2^53, so strict increase is promised only below that bound.
- `UserIds.UserIdSuffix`: stated for every natural number. `String(nextNumber)` (`src/services/userService.js:43`) switches to exponent notation from 10^21, so the round trip holds in the source only below that bound.
- `UserIds.FormatUserIdInjective`: stated for every natural number; in the source it holds only below 2^53, where the counter's numbers are exact.
- `Documents.Lower`: only ASCII letters are lower-cased. JavaScript's `toLowerCase` also folds other Unicode letters.
- `Documents.Truthy`: `NaN` is not a value of the model, so its falsiness is not modelled.
- `UserService.Registry.GetUserByEmail`: returns some user with the matching email. Firestore returns the first in document-id order; the model does not fix which one.
- `UserService.Registry.UpdateUser`: Firestore field paths (keys containing `.`) and `undefined` values in the update data are not modelled. Neither is the source's side effect of writing `category` into the caller's object.
- `getAllUsers` is not modelled. It is a read of the whole collection whose order Firestore decides.
- `UserStore.UpdateStep`, `UserStore.ActiveStatusStep`: a failed `updateDoc` on an existing document (`src/services/userService.js:121`, `:140`) is not modelled; both promise success whenever the document exists. Such a failure changes nothing and would only add an error case.
- `UserStore.CreateStep`: a failed read (`getDocs` at `src/services/userService.js:272`) is not modelled; it would fail before allocation and change nothing. The same holds for the failed `getDoc` reads in `UserStore.UpgradeStep` and `UserStore.RevertStep` (`:155`, `:209`).
- The `generateNextUserId` transaction is always assumed to commit. A failure there changes nothing and would only add an error case.
- The re-check "Original user no longer exists" inside the move transactions, Firestore retries, and concurrent callers are not modelled. Each operation is one atomic, sequential step, and the failure of a transaction as a whole is the `committed` parameter.
- Rejection of malformed document paths (an empty id, an id containing `/`) by Firestore's `doc()` is not modelled; any string is a key.
- A counter document is assumed to hold a number. Only this service writes it.
- The read-back after `setDoc` in createUser, console diagnostics, and the wording of the wrapped error messages are left out. An error is a tagged `Error` value.
- Server timestamps are the opaque `Timestamp(now)` with `now` a parameter.
- Authentication-state mirroring in storage and cookies, checkout totals (floating point), the order service (a thin `addDoc` wrapper) and the page components are UI and I/O, outside this model.

## Findings

| source | as written | input that shows it | evidently intended | confidence | as-written member | corrected member |
|---|---|---|---|---|---|---|
| src/services/userService.js:67-94 | createUser looks for an existing user whose stored email equals the lower-cased input, but stores the email exactly as given | two createUser calls with email `A@x.com`: the lookup searches for `a@x.com`, finds nothing, and both accounts are created | one account per email address regardless of letter case | high (not executed) | `UserStore.DuplicateEmailAdmitted` | `UserStore.FoldedCreateKeepsEmailsUnique` |
