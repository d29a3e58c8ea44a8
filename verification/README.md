# Mutex locks over a key-value store

This project models the locking core of a small lock service in Dafny and
proves properties of it. The service has two lockers built on a shared
key-value store, plus one client of the second locker.

- **The lock manager** (`app.js`, class `MutexManager`):
  - builds namespaced keys `lock:user:<id>`, `lock:company:<id>` and `lock:contract:<id>`;
  - takes a key with an atomic set-if-absent that carries an expiry;
  - releases a key with an atomic compare-and-delete, so only the holder's token can release it;
  - locks a whole company as company key first, then every user key in order, rolling back all of it on the first refusal;
  - unlocks a company best-effort;
  - reports lock status;
  - turns every store error into `false` or `null`.
- **The simple locker** (`locks/redis-locker.js`):
  - writes the constant value `"locked"`;
  - waits for a key by polling, with a 200 ms backoff, until a timeout;
  - releases by deleting the key unconditionally;
  - lets store errors reach its caller.
- **The user agent** (`user-agent.js`, class `UserAgent`):
  - before it works, takes either the user lock it was given, or a company lock and then a random member's user lock;
  - records the keys it took;
  - deletes them all on `disconnect`.

The project has four modules, one per file:

- `KeyValueStore` (`store.dfy`):
  - The store is a map from key to `Entry(value, ttl)`, plus a flag for whether commands reach it at all.
  - It has the five commands the lockers use: `SET NX EX`, the compare-and-delete script, `DEL`, `EXISTS` and `GET`.
  - Each command is a pure function returning a reply and the next store.
  - A command on an offline store, and a `SET` with a non-positive `EX`, answers `Fault`.
  - `Expire` is the store dropping a key whose expiry has lapsed.
- `MutexManager` (`mutex_manager.dfy`): the lock manager.
- `RedisLocker` (`redis_locker.dfy`): the simple locker. `waitForLock` runs against an explicit `World`:
  - a sequence of clock readings (reading 0 at the start, reading k after failed attempt k);
  - what other processes and expiry do to the store during each pause.

  The method `WaitForLock` is proved equal to the recursive reference definition `Poll`.
- `UserAgent` (`user_agent.dfy`): the agent. The random draws of `Math.random()` are parameters in [0, 1). Each `waitForLock` call of `init` gets its own `World`, since each reads `Date.now()` afresh: one for the first wait, one for the member wait that follows a company lock.

## Model

| member | source | states |
|---|---|---|
| MutexManager.LockKeysInjective | app.js:34-44 | Each key builder is injective on the ids' string forms: equal user, company or contract keys come only from ids that print the same |
| MutexManager.LockKeyClassesDisjoint | app.js:29-44 | A user key, a company key and a contract key are never equal, for any ids |
| MutexManager.AcquireLock | app.js:47-59 | Succeeds iff the store accepts the command and the key is absent. On success the key maps to the holder with the effective ttl (default 30). On failure, including a store error, the store is unchanged and nothing is overwritten |
| MutexManager.ReleaseLock | app.js:62-82 | Succeeds iff the key is held with exactly this holder's token, and then only that key is removed. Otherwise, including on a store error, the store is unchanged |
| MutexManager.IsLocked | app.js:85-93 | True iff the key is present. A store error reads as false |
| MutexManager.GetLockHolder | app.js:96-103 | The stored token when the key is present. Null when it is absent or the store fails |
| MutexManager.LockUser | app.js:106-109 | Succeeds iff the store is reachable, the ttl is positive and the user key was free. On success the key holds the caller's token with the effective ttl and no other key changes. On refusal, including a store error, the store is unchanged: a held key is never overwritten |
| MutexManager.UnlockUser | app.js:112-115 | Succeeds iff the store is reachable and the caller held the user key. Afterwards it is free and no other key changes. On refusal, including a store error, the store is unchanged: another holder's key is never deleted |
| MutexManager.LockContract | app.js:188-191 | Succeeds iff the store is reachable, the ttl is positive and the contract key was free. On success the key holds the caller's token with the effective ttl and no other key changes. On refusal, including a store error, the store is unchanged: a held key is never overwritten |
| MutexManager.UnlockContract | app.js:194-197 | Succeeds iff the store is reachable and the caller held the contract key. Afterwards it is free and no other key changes. On refusal, including a store error, the store is unchanged: another holder's key is never deleted |
| MutexManager.CheckUserLock | app.js:200-205 | Reports locked iff the user key is present. The holder is its token when locked, null otherwise |
| MutexManager.CheckCompanyLock | app.js:208-213 | Reports locked iff the company key is present. The holder is its token when locked, null otherwise |
| MutexManager.CheckContractLock | app.js:216-221 | Reports locked iff the contract key is present. The holder is its token when locked, null otherwise |
| MutexManager.SecondAcquireRefused | app.js:47-54 | Once one holder has acquired a key, a second acquire by anyone is refused and leaves the store as the first acquire left it |
| MutexManager.AcquireReleaseRoundTrip | app.js:47-82 | Releasing a lock just acquired, with the same token, restores the store, and the key reads unlocked |
| MutexManager.StaleHolderCannotRelease | app.js:62-77 | After a lock expires and another holder takes the key, the first holder's release fails and the new holder keeps the key |
| MutexManager.LockCompany | app.js:118-164 | "Company already locked" iff the company key is present (or the store refuses), with the store unchanged. `failedUser` is the first user whose key is taken or who repeats an earlier id; every lock taken is rolled back and the store equals the pre-call store. Success iff no user is refused; then exactly the company key and all user keys are added with the holder's token, and there is one `locked: true` report per id, in order |
| MutexManager.UserLoopRollback | app.js:139-146 | When the user loop stops at a refused user, releasing in order the users it locked gives back the store the loop started from, repeated ids included |
| MutexManager.LockCompanyRollback | app.js:139-149 | After a refused user, the rollback releases the users taken and then the company key, and gives back the store from before the company key was taken |
| MutexManager.LockCompanyAllOrNothing | app.js:118-164 | After `lockCompany`, either the call succeeded and holds the company and every user key, or the store is exactly as before |
| MutexManager.SecondCompanyLockRefused | app.js:122-125 | Once a company is locked, a second `lockCompany` on it fails at the company key, whatever users and holder it names, and changes nothing |
| MutexManager.SharedUserExcludes | app.js:131-156 | Once one company holds its users, locking another company that shares a user fails and changes nothing |
| MutexManager.UnlockCompany | app.js:167-185 | Attempts every release regardless of earlier failures. `companyUnlocked` iff the caller held the company key. One report per id, in order, true iff the caller held that user key and no earlier id has the same string form. On a reachable store, the final store lacks exactly those of these keys that the caller held; on a store error nothing changes |
| MutexManager.LockUnlockCompanyRoundTrip | app.js:118-185 | `unlockCompany` after a successful `lockCompany` with the same ids and holder reports every release true and restores the pre-lock store |
| RedisLocker.TryLock | locks/redis-locker.js:8-15 | Writes `"locked"` with the ttl iff the key is absent; otherwise the store is unchanged. A store error (offline, or a non-positive ttl) is raised, not absorbed |
| RedisLocker.ReleaseLock | locks/redis-locker.js:33-36 | Deletes the key whoever set it. Afterwards it is absent and nothing else changed |
| RedisLocker.ReleaseIgnoresHolder | locks/redis-locker.js:33-36 | A key held with some other token is still removed by this release |
| RedisLocker.TryLockReleaseRoundTrip | locks/redis-locker.js:8-36 | Releasing a key just taken restores the store, and the key can then be taken again |
| RedisLocker.Poll | locks/redis-locker.js:17-31 | Reference definition of the polling loop: at least one attempt is made, and one store is recorded per attempt, starting with the store the wait began on |
| RedisLocker.PollRetries | locks/redis-locker.js:20-30 | Every attempt but the last was refused and followed by the world's pause, and the wait answers what its last attempt answered |
| RedisLocker.PollDeadline | locks/redis-locker.js:23-27 | The wait answers false only when the clock read after a refused attempt shows the timeout reached; every earlier reading was before the deadline |
| RedisLocker.WaitLoop | locks/redis-locker.js:20-30 | The `while (true)` loop computes exactly the reference definition `Poll` |
| RedisLocker.WaitForLock | locks/redis-locker.js:17-31 | Assumes a clock that never steps back and pauses of at least 200 ms. Under that assumption it equals `Poll`. Its attempts are recorded with the pauses between them, and the answer is the last attempt's. It makes between 1 and ceil(timeout/200)+1 attempts, and returns false only after a refused attempt observed the timeout |
| RedisLocker.PollAttemptsBounded | locks/redis-locker.js:20-30 | When each pause lasts at least 200 ms, the number of attempts is at most ceil(timeout/200)+1 |
| RedisLocker.FirstAttemptAlwaysMade | locks/redis-locker.js:18-23 | Even with a timeout of zero or less, a free key is taken: the first attempt happens before any deadline check |
| RedisLocker.QuietPollIsOneTry | locks/redis-locker.js:20-27 | When no one else touches the store, waiting ends with the result of a single attempt |
| UserAgent.PickRandomUser | user-agent.js:18-21 | Returns a member of the company's user list for every draw in [0, 1). A name that is not a directory company is an error (inherited property names: see "Left out") |
| UserAgent.PickRandomCompany | user-agent.js:65-66 | Returns a company of the directory, and that company has a user list |
| UserAgent.AgentKeysInjective | user-agent.js:23-29 | `user-lock:` and `company-lock:` keys never collide, and each builder is injective |
| UserAgent.NewAgent | user-agent.js:10-15 | A new agent keeps only a non-empty username and company and owns no locks |
| UserAgent.AwaitLock | user-agent.js:36-37 | The wait is exactly the polling loop `Poll` on the given store and world, so a key freed by another process during a pause is taken at the next attempt. A successful `waitForLock(key, 5, 5000)` leaves the key held with `"locked"`. A store error means the store was unreachable at the last attempt, and an unreachable store fails at once. A timeout means the key was still taken at the last attempt, made at the first clock reading that showed 5000 ms gone. A reachable store with the key free is taken on the first attempt. With no one else acting, the wait ends as a single attempt |
| UserAgent.LockCompanyAndMember | user-agent.js:44-61 | Company lock first, then a random member's user lock. On success both keys are taken, in that order, and the member's key is held. On failure, either nothing was taken, or only the company key was; when no one else acts on the store, that key is still held. A store error means the store is unreachable; a company or member timeout means that key was still taken when its wait's clock showed 5000 ms gone. When the store is reachable, the company is in the directory and both keys are free, it succeeds with exactly those two keys added; when no one else acts, it succeeds only then. In every world, status, keys taken and final store are those the two waits dictate (`FollowsWaits`): the company wait is `Poll` from the start store, and only if it answers true is the company key taken, a member picked and the member wait run as `Poll` from the store the company wait ended with |
| UserAgent.Init | user-agent.js:31-82 | With a username: exactly that user key is added to the owned locks, or on failure the agent is unchanged. With a company: company key then member key are owned and the username is the member; on a user timeout the company key stays owned (and, when no one else acts on the store, held), and the username is unset. With neither: a directory company is picked, and the company and username are set together, only on success. In every case a store error means the store is unreachable, and a timeout means the awaited key was still taken when its wait's clock showed 5000 ms gone. When the store is reachable and the needed keys are free (and, in the company cases, the company is in the directory), `init` succeeds; when no one else acts, it succeeds only then. In every world the outcome and the final store are those of the waits: one `Poll` for a given user; for the company cases, the keys appended to the owned locks, the status and the store follow `FollowsWaits`, so the company key is recorded only after its wait answered true (never on a company timeout or a store error of the company wait) |
| UserAgent.ReleaseAll | user-agent.js:84-88 | Deletes every given key. A store error stops the loop with the store unchanged |
| UserAgent.Disconnect | user-agent.js:84-90 | Afterwards the store is exactly the old store without the owned keys (no key added, still reachable), and the owned list is empty. A store error leaves agent and store as they were |

## Left out

- HTTP routes, request validation and status mapping (app.js:229-363) are not modelled: they are transport around the lock manager.
- `initRedis`, `start` and the signal handlers are not modelled, because they are process lifecycle.
- The connection singleton in `redis-client.js` is not modelled. It has no locking logic; a store that cannot be reached is the `online == false` store.
- Console logging is not modelled: it has no effect on results.
- The rollback messages' text is not modelled; the model keeps only `failedUser`.
- MutexManager.LockKeysInjective: user, company and contract ids are modelled as strings. The source takes `userIds` from a JSON array whose elements it never checks, and `${userId}` turns each into a string, so `1` and `"1"` share the key `lock:user:1`. The model identifies each id with its string form; `lockCompany` refusing the second of `[1, "1"]` and `unlockCompany` reporting it `false` appear in the model as a repeated id.
- Time-based key expiry is not modelled as a clock. It is the explicit step `Expire`, plus the `World.drift` that `waitForLock` pauses expose.
- Concurrency: each command is atomic, and operations run one after another. Interleavings between two callers' multi-step operations are not modelled, except through `World.drift` during `waitForLock` pauses.
- Only integer ttl values are modelled. Fractional values and values beyond the store's integer range are not.
- UserAgent.PickRandomUser: only company names that are own properties of the directory are modelled. A name inherited from `Object.prototype` (`constructor`, `toString`, `__proto__`, ...) makes the source's lookup return a non-array, so the pick is `undefined` and `init` goes on to lock `user-lock:undefined`. The model reports `NotACompany` for every name outside the directory.
- `Math.random()` is not modelled as floating point. It is a real number in [0, 1) passed in.
- The `isLocked`-then-`getLockHolder` sequence in `check*Lock` is not atomic in the source, and a key may change between the two reads. Each check reads one store state.
- RedisLocker.WaitForLock: there is no upper bound on how late it returns, because how far `setTimeout` overshoots is not bounded in the source. Only the attempt count is bounded.
- RedisLocker.WaitForLock: the wait is modelled only for a clock that never steps back and advances at least 200 ms per pause (`Advances`). `Date.now()` is a wall clock; if it stalls or is set back, the source keeps polling past the attempt bound, possibly forever, and the model does not cover that case. Every member about the wait makes the same assumption of the world of each wait: `RedisLocker.Poll`, `RedisLocker.WaitLoop`, the `Poll` lemmas, and `UserAgent.AwaitLock`, `UserAgent.LockCompanyAndMember` and `UserAgent.Init`. Within one wait, the first attempt comes before reading 1 with no minimum gap; only later readings are a backoff apart.
- Between the company wait and the member wait of `init`, other processes are not modelled: the member wait starts on the store the company wait ended with. Other processes act on the store only during a wait's pauses (`World.drift`).
- The store's connection state does not change during one operation. A fault that begins halfway through `lockCompany`'s rollback or `disconnect`'s loop is not modelled.

Notes on how the model reads the code:

- `init` does not release the company key when the user wait times out. The key stays in `ownedLocks` until `disconnect`. `UserAgent.Init` states that the company key stays owned.
- The lock manager treats a refused or failed company `SET` as "Company already locked". This includes an offline store and a non-positive ttl. `MutexManager.LockCompany` states the refusal case with both causes.
- A user id that appears twice in `lockCompany`'s list is refused the second time, because its key is already held by this same call. The whole call then rolls back.
- In the agent, a company given in case 2 that is not in the directory at all makes `_pickRandomUser` throw a `TypeError` after the company lock is already taken. The model reports this as `NotACompany`, and the company key stays owned. Names inherited from `Object.prototype` do not throw in the source; see `UserAgent.PickRandomUser` under "Left out".
- `waitForLock` reads the clock only after a refused attempt and compares with `>=`. An attempt that succeeds after the deadline is still reported as a success, and the first attempt is made whatever the timeout (`RedisLocker.PollDeadline`, `RedisLocker.FirstAttemptAlwaysMade`).
- The simple locker does not use the lock manager's token-checked acquire and release. It writes the constant `"locked"` and deletes without checking, so any agent can release any agent's lock (`RedisLocker.ReleaseIgnoresHolder`).
