# astrobux user ledger, modelled in Dafny

This project models the user-data context of astrobux
(`src/contexts/UserDataContext.tsx`): the per-user ledger
`{points, captchasSolved, lastCaptchaTime}` that the provider loads for the
signed-in user and changes through `addPoints`, `incrementCaptchasSolved` and
`withdrawPoints`.

- `Wrappers.dfy`: `Option`, for the source's nullable values.
- `Ledger.dfy`: the record `UserData`, `defaultUserData`, the error messages,
  the `updates` object each operation sends to the database (`UpdatesFor`),
  the database's merge of a partial update (`Merge`), the `prev => ...` updater
  each operation applies afterwards (`Updated`), and one call on a loaded
  ledger (`Call`).
- `LedgerRuns.dfy`: runs of calls made one after another (`Replay`) and what
  they add up to.
- `UserDataContext.dfy`: the class `UserDataProvider`. Its fields are the
  component state (`userData`, `loading`, `error`), the signed-in user, the
  database (`remote`, the record under `users/{uid}`), the device cache
  (`cache`, the entry under `userData_{uid}`) and the number of the load-effect
  run whose `isMounted` flag is still true (`effectRun`). `fetchUserData` is
  split at its first `await`. `RunEffect` is the cleanup of the previous run
  plus the synchronous prefix. `ResumeFetch` is the rest, after the read and,
  when there is no record, after the write of the default record. `Unmount`
  is the cleanup alone.
- `Scenarios.dfy`: clients that drive a provider through whole sessions.

The clock and the outcome of each database call are inputs: timestamps and
`readOk`/`writeOk` flags are parameters. Whether a load run is still mounted
is state: `RunEffect` and `Unmount` advance `effectRun`, and a run is mounted
while it is the latest. A ghost map `pending` records which runs still await
their read, and for which uid, so only such a run can be resumed, once.

The model follows the code as written:
- Every operation awaits its database update before it changes local state.
  So a failed write leaves the ledger as it was, and nothing needs rolling back.
- None of the three operations writes the device cache. Only a load does.
- A withdrawal above the balance stores the message "Insufficient points".
- `error` is never cleared, not even by a later success or a new load.
- `addPoints` reads the clock twice. The database gets the first reading and
  the local ledger the second, so they agree only when the two readings are
  equal (`Ledger.WriteMatchesUpdater`).

## Model

| member | source | states |
|---|---|---|
| `Ledger.UpdatesFor` | src/contexts/UserDataContext.tsx:100-152 | a call writes nothing exactly when it is a withdrawal above the balance; `addPoints` writes points and time only, `incrementCaptchasSolved` the counter only, `withdrawPoints` points only |
| `Ledger.Updated` | src/contexts/UserDataContext.tsx:106-160 | each local updater changes only the fields its operation owns: `addPoints` adds `amount` and stamps its second clock reading, `incrementCaptchasSolved` adds exactly 1 to the counter, `withdrawPoints` takes exactly `amount` off |
| `Ledger.FailureMessage` | src/contexts/UserDataContext.tsx:113-164 | a failed write's message names its operation ("Failed to add points", "Failed to update stats", "Failed to withdraw points") and differs from the load and balance messages |
| `Ledger.Call` | src/contexts/UserDataContext.tsx:95-165 | one call on a loaded ledger: the ledger changes only through an issued write that resolved, and then becomes the updater's result with the error kept; a withdrawal above the balance and a failed write only set their message; a set message is never cleared |
| `Ledger.WriteMatchesUpdater` | src/contexts/UserDataContext.tsx:99-112 | merging a call's update into a record gives the same result as applying its local updater to that record, if and only if the call is not an `addPoints` whose two clock readings differ |
| `Ledger.WrittenTouchesOnlyCaller` | src/contexts/UserDataContext.tsx:99-104 | a call's database write leaves every other user's record as it was, present or absent |
| `Ledger.WithdrawalNeverOverdraws` | src/contexts/UserDataContext.tsx:143-159 | a withdrawal never makes a non-negative balance negative; a withdrawal above the balance only sets "Insufficient points"; an accepted one whose write resolves takes exactly `amount` off the balance and changes nothing else |
| `LedgerRuns.SucceedingRunBalance` | src/contexts/UserDataContext.tsx:95-165 | when every call succeeds, the final balance is the start plus the sum added minus the sum withdrawn, and the error message is unchanged |
| `LedgerRuns.RunKeepsBalanceNonNegative` | src/contexts/UserDataContext.tsx:141-159 | with non-negative additions, a non-negative balance stays non-negative through any run, including failed and rejected calls |
| `LedgerRuns.RunCountsSolved` | src/contexts/UserDataContext.tsx:119-134 | the counter ends at its start plus the number of resolved increments, so it never decreases |
| `LedgerRuns.RunLastCaptchaTime` | src/contexts/UserDataContext.tsx:100-111 | `lastCaptchaTime` is changed only by resolved `addPoints` calls; it ends at the local time of the last of them, or as it was |
| `LedgerRuns.IncrementsAddN` | src/contexts/UserDataContext.tsx:123-134 | N resolved increments in a row add N to the counter and leave points and `lastCaptchaTime` unchanged |
| `LedgerRuns.ErrorIsNeverCleared` | src/contexts/UserDataContext.tsx:113-164 | once an error message is set, no later call clears it |
| `LedgerRuns.FailedWritesLeaveNoTrace` | src/contexts/UserDataContext.tsx:104-116 | the ledger after a run equals the ledger after the same run with the failed calls dropped |
| `UserDataContext.UserDataProvider.constructor` | src/contexts/UserDataContext.tsx:39-42 | initial state: no ledger, `loading` true, no error |
| `UserDataContext.UserDataProvider.Unmount` | src/contexts/UserDataContext.tsx:90-92 | the cleanup only turns off the running load's `isMounted` |
| `UserDataContext.UserDataProvider.RunEffect` | src/contexts/UserDataContext.tsx:44-64 | no user: the ledger is cleared and loading ends. Otherwise loading starts; a cached ledger is shown at once, an unparsable cache entry ends the load with "Failed to load user data", and nothing cached keeps the previous ledger shown; a read is pending, and recorded for that run and uid, unless the load ended |
| `UserDataContext.UserDataProvider.ResumeFetch` | src/contexts/UserDataContext.tsx:66-85 | only a run whose read is outstanding resumes, for its own uid, and its read is then no longer outstanding. An existing record is shown and cached, and the database is left alone. A missing record is replaced by the default record, which is written, shown and cached. A failed read or write sets "Failed to load user data" and keeps the shown ledger. A stale run never changes `userData`, `loading` or `error`, but still writes the cache and the database. A mounted run ends with `loading` false |
| `UserDataContext.UserDataProvider.AddPoints` | src/contexts/UserDataContext.tsx:95-117 | no user or no ledger: nothing changes. A resolved write sets the stored points to the old balance plus `amount` and the stored time to the first clock reading; locally the balance gains `amount` and the time is the second reading; the counter is unchanged. A failed write changes only `error`, to "Failed to add points". The cache is never written. A ledger in sync with the database stays in sync when both clock readings are equal |
| `UserDataContext.UserDataProvider.IncrementCaptchasSolved` | src/contexts/UserDataContext.tsx:119-139 | no user or no ledger: nothing changes. A resolved write adds exactly 1 to the counter, both stored and local, and leaves points and time unchanged. A failed write changes only `error`, to "Failed to update stats". Sync with the database is kept |
| `UserDataContext.UserDataProvider.WithdrawPoints` | src/contexts/UserDataContext.tsx:141-165 | no user or no ledger: nothing changes. A withdrawal above the balance sets "Insufficient points" and writes nothing. Otherwise a resolved write makes the stored and local balance the old balance minus `amount`, which is non-negative. A failed write changes only `error`, to "Failed to withdraw points". Sync with the database is kept |
| `Scenarios.NewUserSession` | src/contexts/UserDataContext.tsx:74-165 | new user: the default record is created. Then add 50, withdraw 80 (rejected), withdraw 30 and increment three times. The shown ledger ends as `{20, 3, now}` and equals the stored record, the error is "Insufficient points", and the cache still holds the default record |
| `Scenarios.SwitchUserMidLoad` | src/contexts/UserDataContext.tsx:44-93 | a load for the previous user that resolves after a user switch never shows its record, though it caches it; the new user's load then shows the new user's record |
| `Scenarios.CachedThenReadFails` | src/contexts/UserDataContext.tsx:59-85 | a cached ledger stays shown when the read then fails, with "Failed to load user data", and loading ends |

## Left out

- `src/App.tsx` (routing, the protected-route redirect and spinner, analytics script injection): user interface with no ledger logic.
- Firebase `ref`/`get`/`set`/`update` and `localStorage` as real I/O. The database and the cache are maps, and each call's outcome is a boolean parameter. A cache write is taken never to fail.
- Ledger.Stored: when a user has no record, the database's partial update creates a record holding only the written fields. The model merges the update into the default record instead.
- JSON serialisation of the cache. Cache entries hold ledgers directly, and `Malformed` stands for text that `JSON.parse` rejects. Other JSON shapes (such as the text `null`) and a database value of another shape are not modelled.
- JavaScript numbers are modelled as unbounded integers: no floating point, no `NaN`, no loss of precision.
- Interleaving of concurrent operations, and the lost update between the closure's `userData` and the `prev` that the updater receives. Each operation is atomic, so the two coincide. The load is split at its `await`, so an operation can still run while a load is pending.
- `Date.now()` becomes timestamp parameters; `console.error` is dropped.
- The React context and hook plumbing, including the "must be used within a UserDataProvider" error of `useUserData`.
- The session provider itself: the provider sees only the uid it reports, through `RunEffect`.
