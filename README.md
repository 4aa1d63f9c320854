# redis_cave_keeper in Dafny

A model of the redis_cave_keeper lease lock. The lock guards one resource
key. It stores a single integer, a "valid until" timestamp, under a
namespaced store key. It uses only four store primitives: SETNX, GET,
GETSET and DEL. The model covers three classes:

- `CaveKeeper` (`cave_keeper.dfy`, module `CaveKeeping`). `Lock` loops. Each
  pass tries SETNX first. If that fails, it tries to steal an expired lease
  with a GETSET whose returned value must also be in the past. If both fail,
  the retry counter waits. `Unlock` re-validates the lease with GET and then
  GETSET before it deletes the key.
- `DefaultRetryManager` (`retry_manager.dfy`, class `RetryManager`). A
  bounded attempt counter. It raises RetryError once the budget is used up.
  This is what makes `Lock`'s loop end.
- The earlier `RedisCaveKeeper` (`legacy_keeper.dfy`). It makes one SETNX
  attempt and one steal attempt, has no retry and no unlock.

The store is the class `KeyValue.Store`, holding a `map<string, int>`. An
absent key reads as 0, as `nil.to_i` does (`KeyValue.ToI`). The error
classes become the `Outcome` datatype: `Ok(value)` or `Raised(error)`. The
clock is injected. `Lock` takes `clock: nat -> int`, one reading per pass;
all the reads of `Time.now` within one pass see that reading. `Unlock` and
the legacy `Lock` take a single `now`.

Writes by other clients are explicit parameters of type `Edit` (nothing, a
SET, or a DEL of the lock key). They land at the gaps between our store
calls. A `Rival` gives the writes before SETNX, between SETNX and GET, and
between GET and GETSET of one pass. `Unlock` takes the writes before its
GET and before its GETSET. This is how the tests stage races: they stub
`lock_expired?` to write the key.

The protocol is written once, as functions in module `Lease`. One pass is
`AcquirePass`. The release check is `ReleaseGuard`. The whole retry loop is
`CaveKeeping.LockRun`. The class methods are proved equal to these
functions, and the properties are lemmas about the functions.

Some behaviours of the code worth knowing:

- The lease written is `now + timeout + 1`.
- The retry counter is reset only by a successful unlock. A successful lock
  does not reset it.
- With `perform_retry` off, the loop body never runs. No SETNX or steal is
  attempted and `lock` answers false. So the contention test that turns
  retries off (spec/cave_keeper_spec.rb:154-163) never reaches the steal
  path. The lost race it describes is proved directly
  (`Lease.LostStealStillWrites`).
- `unlock`'s GETSET writes a fresh expiration. A stale write between unlock's GET
  and its GETSET fails the check, and so does a DEL there for any positive
  clock reading. The fresh expiration then
  stays in the store and the instance stays locked. A second `unlock` within
  the new lease succeeds and deletes the key
  (`Lease.SecondReleaseAfterStaleWritePasses`).
- A client that steals the lease between unlock's GET and GETSET writes a
  later expiration. Our GETSET then returns a future value, so the check
  passes and `unlock` deletes that client's lease
  (`Lease.OverwriteDuringReleasePasses`).

## Model

| member | source | states |
|---|---|---|
| `Lease.Expiration` | lib/redis_cave_keeper/cave_keeper.rb:98-100 | the lease ends `timeout + 1` seconds after `now`, strictly in the future whenever the timeout is not negative (the legacy class uses the same formula, lib/redis_cave_keeper.rb:52-54) |
| `Lease.AcquirePass` | lib/redis_cave_keeper/cave_keeper.rb:19-20 | one pass touches only the lock key; a won pass leaves `now + timeout + 1` stored; with no other writer it wins exactly when the key is absent or holds a past timestamp, and a lost quiet pass writes nothing |
| `Lease.StealGuard` | lib/redis_cave_keeper/cave_keeper.rb:74-85 | with the key present at SETNX, the pass wins iff both the value GET read and the value GETSET returned are before `now`; the new expiration is written whenever the read value was in the past, even if the race is lost; otherwise the store is what GET saw |
| `Lease.LostStealStillWrites` | spec/cave_keeper_spec.rb:154-163 | a rival extending an expired lease between our GET and our GETSET makes us lose, and the store holds our expiration |
| `Lease.TwoStealersOneWinner` | lib/redis_cave_keeper/cave_keeper.rb:76-78 | of two clients that both read the same expired lease, the one whose GETSET lands first wins, and the second loses unless its clock is already past the first one's lease |
| `Lease.ExclusionWhileLeaseValid` | lib/redis_cave_keeper/cave_keeper.rb:87-92 | after a won pass, any quiet pass by another client before that lease ends loses and changes nothing |
| `Lease.ReleaseGuard` | lib/redis_cave_keeper/cave_keeper.rb:50-54 | the check touches only the lock key; when it passes, the store holds a fresh expiration; with no other writer it passes iff the stored value (0 if absent) is not before `now`, and a failing quiet check writes nothing |
| `Lease.ReleaseGuardFailures` | lib/redis_cave_keeper/cave_keeper.rb:50-54 | the two failures: the value read is in the past (nothing written), or the value GETSET returned is in the past (fresh expiration written) |
| `Lease.SecondReleaseAfterStaleWritePasses` | lib/redis_cave_keeper/cave_keeper.rb:50-54 | a stale write (a past timestamp) between unlock's GET and GETSET fails the check, and a second check within our re-extended lease passes |
| `Lease.OverwriteDuringReleasePasses` | lib/redis_cave_keeper/cave_keeper.rb:50-54 | a client that steals the lease between unlock's GET and GETSET writes a later expiration, so our GETSET returns a future value and the check passes: unlock deletes that client's lease |
| `Lease.SetnxPass` | lib/redis_cave_keeper/cave_keeper.rb:87-92 | the fast path on the store: SETNX of the expiration wins exactly when the key is absent, and then stores it; otherwise nothing changes |
| `Lease.StealPass` | lib/redis_cave_keeper/cave_keeper.rb:74-81 | the steal path on the store: the pass wins iff both the value read and the value GETSET returned (after the rival's write) are in the past; when the read value is in the past the new store is the rival's write followed by our expiration, even if the race is lost; otherwise nothing changes (the legacy class does the same, lib/redis_cave_keeper.rb:24-30) |
| `KeyValue.ToI` | lib/redis_cave_keeper/cave_keeper.rb:62-68 | `.to_i` on a reply: an absent key reads as 0, a stored value as itself |
| `CaveKeeping.LockRun` | lib/redis_cave_keeper/cave_keeper.rb:18-24 | the loop of `lock` with retries on: passes until one wins (locked) or a lost pass finds the budget spent (RetryError), each other lost pass counting one attempt; it runs at least one pass (its full contract is `LockRunBounds`) |
| `CaveKeeping.LockRunBounds` | lib/redis_cave_keeper/cave_keeper.rb:18-24 | the loop runs at least one and at most `budget + 1` passes; every pass but the last uses one attempt; a locked end leaves the last pass's expiration stored; a RetryError end runs exactly `budget + 1` passes and raises the counter to `max_attempts`; other keys are untouched |
| `CaveKeeping.LockRunUnfold` | lib/redis_cave_keeper/cave_keeper.rb:18-24 | one loop step: a pass, then stop if it won or the budget is spent, otherwise continue with one more attempt counted |
| `CaveKeeping.AbsentKeyFirstPass` | lib/redis_cave_keeper/cave_keeper.rb:87-92 | an absent key is taken on the first pass by SETNX, storing `now + timeout + 1`, with no attempt used |
| `CaveKeeping.ExpiredLeaseFirstPass` | spec/cave_keeper_spec.rb:145-152 | an expired lease is stolen on the first pass with no attempt used, and the stored value is then in the future |
| `CaveKeeping.ValidLeaseExhaustsRetries` | spec/cave_keeper_spec.rb:166-182 | while another holder's lease stays valid and nobody writes, the run ends unlocked (RetryError) with the store unchanged |
| `CaveKeeping.LockThenUnlockRestores` | lib/redis_cave_keeper/cave_keeper.rb:28-34 | lock, then unlock within the lease with no other writer: the release check passes, and after the DEL the store equals the store before the lock minus the lock key |
| `CaveKeeping.LockUnlockRoundTrip` | spec/cave_keeper_spec.rb:190-193 | a default keeper that locks and then, within the lease and with no other writer, unlocks answers true, clears its flag and leaves the store as before minus the lock key, however many retries the lock took; a lock that raised RetryError makes the unlock raise UnlockError |
| `CaveKeeping.CaveKeeper.constructor` | lib/redis_cave_keeper/cave_keeper.rb:6-14 | the lock key is `"cave-keeper-lock:" + key`, the timeout defaults to 5, the retry budget to 10, the counter starts at 0, retries are on, the lock is not held |
| `CaveKeeping.CaveKeeper.HasLock` | lib/redis_cave_keeper/cave_keeper.rb:41-43 | answers the local lock flag |
| `CaveKeeping.CaveKeeper.Lock` | lib/redis_cave_keeper/cave_keeper.rb:16-26 | already held: LockError, store and counter untouched; retries off: false, nothing touched; otherwise store, flag and counter are those of `LockRun`, answering true when locked and RetryError (flag still false) when not |
| `CaveKeeping.CaveKeeper.RetryUntilLocked` | lib/redis_cave_keeper/cave_keeper.rb:18-25 | the loop of `lock`, proved equal to `LockRun` when retries are on, and a no-op answering false when they are off |
| `CaveKeeping.CaveKeeper.LockPass` | lib/redis_cave_keeper/cave_keeper.rb:19-23 | the loop body: store and flag are those of `AcquirePass`; a lost pass waits, so the counter goes up by one or RetryError is raised with the counter unchanged |
| `CaveKeeping.CaveKeeper.Unlock` | lib/redis_cave_keeper/cave_keeper.rb:28-39 | not held: UnlockError, nothing touched; check passes: key deleted, flag cleared, counter reset, true; check fails: UnlockError, flag still set, key not deleted, store as `ReleaseGuard` left it |
| `CaveKeeping.CaveKeeper.RetryWaitOperation` | lib/redis_cave_keeper/cave_keeper.rb:46-48 | delegates to the retry counter: raises exactly when the budget is spent, otherwise counts one attempt |
| `CaveKeeping.CaveKeeper.UnlockSave` | lib/redis_cave_keeper/cave_keeper.rb:50-54 | the answer and the new store are those of `ReleaseGuard` |
| `CaveKeeping.CaveKeeper.ReleaseLockAndReset` | lib/redis_cave_keeper/cave_keeper.rb:56-60 | the lock key is deleted, the flag cleared and the counter reset to 0 |
| `CaveKeeping.CaveKeeper.GetLockExpiration` | lib/redis_cave_keeper/cave_keeper.rb:62-64 | the stored timestamp, or 0 when the key is absent |
| `CaveKeeping.CaveKeeper.GetsetExpiration` | lib/redis_cave_keeper/cave_keeper.rb:66-68 | writes `now + timeout + 1` and returns the previous timestamp, 0 if absent |
| `CaveKeeping.CaveKeeper.SetnxExpiration` | lib/redis_cave_keeper/cave_keeper.rb:70-72 | writes the expiration only if the key is absent, and says whether it did |
| `CaveKeeping.CaveKeeper.AcquireLockIfExpired` | lib/redis_cave_keeper/cave_keeper.rb:74-81 | the steal path: store and flag as `StealPass` gives them; answers the flag |
| `CaveKeeping.CaveKeeper.LockExpired` | lib/redis_cave_keeper/cave_keeper.rb:83-85 | expired iff the stored timestamp is strictly before `now`; an absent key counts as expired for any positive `now` |
| `CaveKeeping.CaveKeeper.TryToAcquireLock` | lib/redis_cave_keeper/cave_keeper.rb:87-92 | the fast path: the flag is set exactly when SETNX wrote; answers the flag |
| `RetryManagement.Budget` | lib/redis_cave_keeper/default_retry_manager.rb:26-29 | the number of `run` calls still allowed: `max_attempts - attempt_count`, or 0 once the count has reached the maximum |
| `RetryManagement.RetryManager.constructor` | lib/redis_cave_keeper/default_retry_manager.rb:5-9 | a missing maximum defaults to 10, the counter starts at 0, and the invariant `attempt_count <= max(0, max_attempts)` holds |
| `RetryManagement.RetryManager.CheckMaxAttemptsReached` | lib/redis_cave_keeper/default_retry_manager.rb:26-30 | raises RetryError exactly when `attempt_count >= max_attempts` |
| `RetryManagement.RetryManager.IncrementAttempts` | lib/redis_cave_keeper/default_retry_manager.rb:22-24 | the counter goes up by one |
| `RetryManagement.RetryManager.Run` | lib/redis_cave_keeper/default_retry_manager.rb:11-15 | raises RetryError exactly when the count has reached the maximum, leaving the count unchanged; otherwise counts exactly one attempt; keeps the invariant |
| `RetryManagement.RetryManager.Reset` | lib/redis_cave_keeper/default_retry_manager.rb:17-19 | sets the counter to 0 and changes nothing else; keeps the invariant |
| `RetryManagement.RunFresh` | spec/default_retry_manager_spec.rb:5-20 | from a fresh manager exactly `max(0, max_attempts)` calls to `run` succeed (10 by default), and the next one raises |
| `LegacyKeeper.RedisCaveKeeper.constructor` | lib/redis_cave_keeper.rb:6-10 | the lock key is `"lock:" + key`, the timeout defaults to 5, the lock is not held |
| `LegacyKeeper.RedisCaveKeeper.HasLock` | lib/redis_cave_keeper.rb:19-21 | answers the local lock flag |
| `LegacyKeeper.RedisCaveKeeper.Lock` | lib/redis_cave_keeper.rb:12-17 | not held: one `AcquirePass`, no retry, answering whether it won; already held: the SETNX still runs, the flag stays set and the answer is true |
| `LegacyKeeper.RedisCaveKeeper.AcquireLockIfExpired` | lib/redis_cave_keeper.rb:24-30 | the steal path: store and flag as `StealPass` gives them |
| `LegacyKeeper.RedisCaveKeeper.OtherLockExpired` | lib/redis_cave_keeper.rb:32-34 | expired iff the stored timestamp is strictly before `now`, with an absent key read as 0 |
| `LegacyKeeper.RedisCaveKeeper.SecureSetExpiration` | lib/redis_cave_keeper.rb:36-38 | writes `now + timeout + 1` and returns the previous timestamp, 0 if absent |
| `LegacyKeeper.RedisCaveKeeper.TryToAcquireLock` | lib/redis_cave_keeper.rb:40-46 | the flag is set when SETNX wrote, kept when already set; answers the flag |
| `LegacyKeeper.ValidLeaseRefused` | lib/redis_cave_keeper.rb:12-17 | a key holding a lease not yet in the past makes the single pass fail with the store unchanged |
| `KeyValue.Lookup` | lib/redis_cave_keeper/cave_keeper.rb:62-64 | GET: the stored value when the key is present, nothing otherwise |
| `KeyValue.ApplyEdit` | spec/cave_keeper_spec.rb:157-160 | another client's write changes only the lock key: kept, set to the given value, or deleted |
| `KeyValue.Store.SetNx` | lib/redis_cave_keeper/cave_keeper.rb:70-72 | SETNX writes only when the key is absent and says whether it wrote |
| `KeyValue.Store.Get` | lib/redis_cave_keeper/cave_keeper.rb:62-64 | the GET primitive alone: returns the stored value, or nothing when the key is absent, and writes nothing (the keepers read the same value through `Lookup` inside their reading functions) |
| `KeyValue.Store.GetSet` | lib/redis_cave_keeper/cave_keeper.rb:66-68 | GETSET writes the new value and returns the previous one |
| `KeyValue.Store.Del` | lib/redis_cave_keeper/cave_keeper.rb:56-57 | DEL removes the key and nothing else |
| `KeyValue.Store.Apply` | spec/cave_keeper_spec.rb:196-199 | another client's write lands on the shared store between two of ours |

## Left out

- The store's network client and connection are left out. The store is an in-memory map with atomic primitives.
- Sleeping is left out. `Kernel.sleep` and the float `sleep_time` are a pure delay, so `RetryManager.Run` does not sleep and has no sleep-time field.
- Wall-clock time is left out. The clock is an injected integer, with one reading per pass of `lock`. The source reads `Time.now` several times within a pass, and the model does not capture the tiny gaps between those readings.
- Real concurrency and mutual exclusion across processes are left out. Other clients appear only as explicit writes at the gaps between our store calls. Their effect is proved pass by pass (`Lease.TwoStealersOneWinner`, `Lease.ExclusionWhileLeaseValid`), not over arbitrary interleavings.
- A rival write between unlock's GETSET and its DEL is not a parameter. The DEL removes the key whatever it then holds, so the outcome would be the same.
- `lock_for_update!`, `lock_and_load_for_update!`, `lock_and_load_and_save!`, `lock!`, `unlock!` and the SaveKeyError path are left out. Their tests exist, but their code is not part of this model. `SaveKeyError` is kept only as an error kind.
- `acquire_lock` and `now` are one-line helpers. They are inlined: the flag assignment and the injected clock.
- `attr_accessor :perform_retry` is modelled as the public field `performRetry`. Nothing in the model changes it during a `Lock`.
- The composite-helper tests and spec/redis_cave_keeper_spec.rb are not used to derive properties. That second test file targets a different interface from lib/redis_cave_keeper.rb: another key prefix, LockError and an unlock.
- Stored values are integers. A value `to_i` would parse from a non-numeric string is not modelled, since the lock only ever writes integers.
- Ruby never initialises `@locked`, so on a fresh instance `has_lock?` (and `lock` with retries off) answers `nil`; the model uses `false`, which Ruby treats the same way in every condition here.
