/** CaveKeeper: the lease lock with a retrying `Lock` and a guarded `Unlock`. */
module CaveKeeping {
  import opened Outcomes
  import opened KeyValue
  import opened Lease
  import opened RetryManagement

  const LockKeyPrefix: string := "cave-keeper-lock:"
  const DefaultTimeout: int := 5

  /** Where the acquisition loop ends: the store, whether the lock was taken,
      the retry counter, and the number of passes run so far. */
  datatype Run = Run(db: Db, locked: bool, attempts: int, passes: nat)

  /** The acquisition loop from pass number `pass` on, with `clock(i)` the
      clock reading and `rivals(i)` other clients' writes during pass i. A
      pass that neither SETNXes nor steals asks the retry counter to wait,
      which raises (ending the run unlocked) once the budget is spent. */
  function LockRun(db: Db, key: string, timeout: int, clock: nat -> int, rivals: nat -> Rival,
                   attempts: int, maxAttempts: int, pass: nat): (r: Run)
    decreases Budget(attempts, maxAttempts)
    ensures r.passes > pass
  {
    var p := AcquirePass(db, key, clock(pass), timeout, rivals(pass));
    if p.won then Run(p.db, true, attempts, pass + 1)
    else if attempts >= maxAttempts then Run(p.db, false, attempts, pass + 1)
    else LockRun(p.db, key, timeout, clock, rivals, attempts + 1, maxAttempts, pass + 1)
  }

  /** What every run guarantees: it ends after at most budget + 1 passes,
      each pass but the last used one retry attempt; a run that ends locked
      leaves the expiration of its last pass in the store; a run that ends
      unlocked (RetryError) ran exactly budget + 1 passes and spent the whole
      budget; keys other than the lock key are never touched. */
  lemma {:induction false} LockRunBounds(db: Db, key: string, timeout: int, clock: nat -> int, rivals: nat -> Rival,
                                         attempts: int, maxAttempts: int, pass: nat)
    decreases Budget(attempts, maxAttempts)
    ensures var r := LockRun(db, key, timeout, clock, rivals, attempts, maxAttempts, pass);
            && pass < r.passes <= pass + Budget(attempts, maxAttempts) + 1
            && r.attempts == attempts + (r.passes - pass - 1)
            && (r.locked ==> Lookup(r.db, key) == Some(Expiration(clock(r.passes - 1), timeout)))
            && (!r.locked ==> r.passes == pass + Budget(attempts, maxAttempts) + 1)
            && (!r.locked ==> r.attempts == (if attempts < maxAttempts then maxAttempts else attempts))
            && (forall k :: k != key ==> Lookup(r.db, k) == Lookup(db, k))
  {
    var p := AcquirePass(db, key, clock(pass), timeout, rivals(pass));
    if !p.won && attempts < maxAttempts {
      LockRunBounds(p.db, key, timeout, clock, rivals, attempts + 1, maxAttempts, pass + 1);
    }
  }

  /** One step of the loop: the run from pass `pass` is the pass followed,
      when it lost and the budget allows, by the run from the next pass. */
  lemma LockRunUnfold(db: Db, key: string, timeout: int, clock: nat -> int, rivals: nat -> Rival,
                      attempts: int, maxAttempts: int, pass: nat)
    ensures var p := AcquirePass(db, key, clock(pass), timeout, rivals(pass));
            LockRun(db, key, timeout, clock, rivals, attempts, maxAttempts, pass)
            == if p.won then Run(p.db, true, attempts, pass + 1)
               else if attempts >= maxAttempts then Run(p.db, false, attempts, pass + 1)
               else LockRun(p.db, key, timeout, clock, rivals, attempts + 1, maxAttempts, pass + 1)
  {
  }

  /** An absent key is taken on the first pass by SETNX, without waiting. */
  lemma AbsentKeyFirstPass(db: Db, key: string, timeout: int, clock: nat -> int, rivals: nat -> Rival,
                           attempts: int, maxAttempts: int)
    requires key !in db && rivals(0) == Quiet
    ensures LockRun(db, key, timeout, clock, rivals, attempts, maxAttempts, 0)
            == Run(db[key := Expiration(clock(0), timeout)], true, attempts, 1)
  {
  }

  /** An expired lease, with no other client writing, is stolen on the first
      pass and the store then holds a timestamp in the future. */
  lemma ExpiredLeaseFirstPass(db: Db, key: string, timeout: int, clock: nat -> int, rivals: nat -> Rival,
                              attempts: int, maxAttempts: int)
    requires key in db && db[key] < clock(0) && rivals(0) == Quiet && timeout >= 0
    ensures var r := LockRun(db, key, timeout, clock, rivals, attempts, maxAttempts, 0);
            r == Run(db[key := Expiration(clock(0), timeout)], true, attempts, 1) && r.db[key] > clock(0)
  {
  }

  /** While another holder's lease stays valid at every clock reading and
      nobody else writes, every pass fails without writing: the run spends
      the whole retry budget and ends in RetryError with the store unchanged. */
  lemma {:induction false} ValidLeaseExhaustsRetries(db: Db, key: string, timeout: int, clock: nat -> int,
                                                     rivals: nat -> Rival, attempts: int, maxAttempts: int, pass: nat)
    requires key in db
    requires forall i: nat :: pass <= i ==> clock(i) <= db[key]
    requires forall i: nat :: pass <= i ==> rivals(i) == Quiet
    ensures var r := LockRun(db, key, timeout, clock, rivals, attempts, maxAttempts, pass);
            !r.locked && r.db == db
    decreases Budget(attempts, maxAttempts)
  {
    var p := AcquirePass(db, key, clock(pass), timeout, rivals(pass));
    assert !p.won && p.db == db;
    if attempts < maxAttempts {
      ValidLeaseExhaustsRetries(db, key, timeout, clock, rivals, attempts + 1, maxAttempts, pass + 1);
    }
  }

  /** A lock followed, within the lease, by an unlock with no other client
      writing: the release check passes, and once the key is deleted the
      store is what it was before the lock, minus the lock key, however many
      retries the lock took. */
  lemma LockThenUnlockRestores(db: Db, key: string, timeout: int, clock: nat -> int, rivals: nat -> Rival,
                               attempts: int, maxAttempts: int, later: int)
    requires var r := LockRun(db, key, timeout, clock, rivals, attempts, maxAttempts, 0);
             r.locked && later <= Expiration(clock(r.passes - 1), timeout)
    ensures var r := LockRun(db, key, timeout, clock, rivals, attempts, maxAttempts, 0);
            var rel := ReleaseGuard(r.db, key, later, timeout, Keep, Keep);
            rel.safe && rel.db - {key} == db - {key}
  {
    LockRunBounds(db, key, timeout, clock, rivals, attempts, maxAttempts, 0);
    var r := LockRun(db, key, timeout, clock, rivals, attempts, maxAttempts, 0);
    var rel := ReleaseGuard(r.db, key, later, timeout, Keep, Keep);
    forall k
      ensures k in rel.db - {key} <==> k in db - {key}
      ensures k in db - {key} ==> (rel.db - {key})[k] == (db - {key})[k]
    {
      if k != key {
        assert Lookup(rel.db, k) == Lookup(r.db, k) == Lookup(db, k);
      }
    }
  }

  class CaveKeeper {
    const store: Store
    const key: string
    const lockKey: string
    const timeout: int
    const retryManager: RetryManager
    var performRetry: bool
    var locked: bool

    ghost predicate Valid()
      reads this, retryManager
    {
      retryManager.Valid()
    }

    /** The lock key is namespaced under "cave-keeper-lock:"; the timeout
        defaults to 5 seconds and the retry budget to 10 attempts. */
    constructor (store: Store, key: string, timeout: Option<int>, maxAttempts: Option<int>)
      ensures Valid() && fresh(retryManager)
      ensures this.store == store && this.key == key
      ensures lockKey == LockKeyPrefix + key
      ensures this.timeout == (if timeout.Some? then timeout.value else DefaultTimeout)
      ensures retryManager.maxAttempts == (if maxAttempts.Some? then maxAttempts.value else DefaultMaxAttempts)
      ensures retryManager.attemptCount == 0
      ensures performRetry && !locked
    {
      this.store := store;
      this.key := key;
      lockKey := LockKeyPrefix + key;
      this.timeout := if timeout.Some? then timeout.value else DefaultTimeout;
      retryManager := new RetryManager(maxAttempts);
      performRetry := true;
      locked := false;
    }

    function HasLock(): (held: bool)
      reads this
      ensures held <==> locked
    {
      locked
    }

    /** Acquires the lock, retrying until it is taken or the retry budget is
        spent. Raises LockError, touching nothing, if already held; returns
        false, touching nothing, when retries are switched off. */
    method Lock(clock: nat -> int, rivals: nat -> Rival) returns (r: Outcome<bool>, ghost passes: nat)
      requires Valid()
      modifies this`locked, store, retryManager
      ensures Valid()
      ensures old(locked) ==>
                && r == Raised(LockError) && locked && passes == 0
                && store.data == old(store.data)
                && retryManager.attemptCount == old(retryManager.attemptCount)
      ensures !old(locked) && !performRetry ==>
                && r == Ok(false) && !locked && passes == 0
                && store.data == old(store.data)
                && retryManager.attemptCount == old(retryManager.attemptCount)
      ensures !old(locked) && performRetry ==>
                var run := LockRun(old(store.data), lockKey, timeout, clock, rivals,
                                   old(retryManager.attemptCount), retryManager.maxAttempts, 0);
                && passes == run.passes && store.data == run.db && locked == run.locked
                && retryManager.attemptCount == run.attempts
                && r == (if run.locked then Ok(true) else Raised(RetryError))
    {
      if locked {
        return Raised(LockError), 0;
      }
      r, passes := RetryUntilLocked(clock, rivals);
    }

    /** The loop of `lock`: passes run while the lock is not held and
        retries are on; a RetryError from the retry counter ends it. */
    method RetryUntilLocked(clock: nat -> int, rivals: nat -> Rival) returns (r: Outcome<bool>, ghost passes: nat)
      requires Valid() && !locked
      modifies this`locked, store, retryManager
      ensures Valid()
      ensures !performRetry ==>
                && r == Ok(false) && !locked && passes == 0
                && store.data == old(store.data)
                && retryManager.attemptCount == old(retryManager.attemptCount)
      ensures performRetry ==>
                var run := LockRun(old(store.data), lockKey, timeout, clock, rivals,
                                   old(retryManager.attemptCount), retryManager.maxAttempts, 0);
                && passes == run.passes && store.data == run.db && locked == run.locked
                && retryManager.attemptCount == run.attempts
                && r == (if run.locked then Ok(true) else Raised(RetryError))
    {
      passes := 0;
      var pass: nat := 0;
      ghost var run := LockRun(store.data, lockKey, timeout, clock, rivals,
                               retryManager.attemptCount, retryManager.maxAttempts, 0);
      while !locked && performRetry
        invariant Valid()
        invariant passes == pass
        invariant !performRetry ==> passes == 0 && !locked && store.data == old(store.data)
                                    && retryManager.attemptCount == old(retryManager.attemptCount)
        invariant performRetry && !locked ==>
                    LockRun(store.data, lockKey, timeout, clock, rivals,
                            retryManager.attemptCount, retryManager.maxAttempts, passes) == run
        invariant performRetry && locked ==>
                    run.locked && passes == run.passes && store.data == run.db
                    && retryManager.attemptCount == run.attempts
        decreases (if locked then 0 else 1) + Budget(retryManager.attemptCount, retryManager.maxAttempts)
      {
        ghost var db0, attempts0 := store.data, retryManager.attemptCount;
        LockRunUnfold(db0, lockKey, timeout, clock, rivals, attempts0, retryManager.maxAttempts, pass);
        var w := LockPass(clock(pass), rivals(pass));
        if w.Raised? {
          pass := pass + 1;
          passes := pass;
          return Raised(w.error), passes;
        }
        pass := pass + 1;
        passes := pass;
      }
      r := Ok(locked);
    }

    /** The loop body of `lock`: the SETNX fast path, then the steal path,
        then, if neither took the lock, the retry counter's wait step; other
        clients write at the gaps as `rv` says. */
    method LockPass(now: int, rv: Rival) returns (w: Outcome<()>)
      requires Valid() && !locked
      modifies this`locked, store, retryManager
      ensures Valid()
      ensures var p := AcquirePass(old(store.data), lockKey, now, timeout, rv);
              store.data == p.db && locked == p.won
      ensures locked ==> w == Ok(()) && retryManager.attemptCount == old(retryManager.attemptCount)
      ensures !locked ==> (w.Raised? <==> old(retryManager.attemptCount) >= retryManager.maxAttempts)
      ensures !locked && w.Raised? ==> w.error == RetryError && retryManager.attemptCount == old(retryManager.attemptCount)
      ensures !locked && w.Ok? ==> retryManager.attemptCount == old(retryManager.attemptCount) + 1
    {
      w := Ok(());
      store.Apply(lockKey, rv.atSetnx);
      var held := TryToAcquireLock(now);
      if !held {
        store.Apply(lockKey, rv.atGet);
        held := AcquireLockIfExpired(now, rv.atGetset);
        if !held {
          w := RetryWaitOperation();
        }
      }
    }

    /** Releases the lock: raises UnlockError, touching nothing, when not
        held; otherwise runs the release check and, only if it passes,
        deletes the key, clears the flag and resets the retry counter. When
        the check fails the flag stays set and the key is not deleted. */
    method Unlock(now: int, atGet: Edit, atGetset: Edit) returns (r: Outcome<bool>)
      requires Valid()
      modifies this`locked, store, retryManager
      ensures Valid()
      ensures !old(locked) ==>
                && r == Raised(UnlockError) && !locked && store.data == old(store.data)
                && retryManager.attemptCount == old(retryManager.attemptCount)
      ensures old(locked) ==>
                var rel := ReleaseGuard(old(store.data), lockKey, now, timeout, atGet, atGetset);
                if rel.safe then
                  r == Ok(true) && !locked && store.data == rel.db - {lockKey} && retryManager.attemptCount == 0
                else
                  && r == Raised(UnlockError) && locked && store.data == rel.db
                  && retryManager.attemptCount == old(retryManager.attemptCount)
    {
      if !locked {
        return Raised(UnlockError);
      }
      var safe := UnlockSave(now, atGet, atGetset);
      if safe {
        ReleaseLockAndReset();
        return Ok(true);
      }
      return Raised(UnlockError);
    }

    method RetryWaitOperation() returns (w: Outcome<()>)
      requires Valid()
      modifies retryManager
      ensures Valid()
      ensures w.Raised? <==> old(retryManager.attemptCount) >= retryManager.maxAttempts
      ensures w.Raised? ==> w.error == RetryError && retryManager.attemptCount == old(retryManager.attemptCount)
      ensures w.Ok? ==> retryManager.attemptCount == old(retryManager.attemptCount) + 1
    {
      w := retryManager.Run();
    }

    /** The release check of `unlock`, with other clients' writes before our
        GET and before our GETSET. */
    method UnlockSave(now: int, atGet: Edit, atGetset: Edit) returns (safe: bool)
      modifies store
      ensures var rel := ReleaseGuard(old(store.data), lockKey, now, timeout, atGet, atGetset);
              safe == rel.safe && store.data == rel.db
    {
      store.Apply(lockKey, atGet);
      if LockExpired(now) {
        return false;
      }
      store.Apply(lockKey, atGetset);
      var prev := GetsetExpiration(now);
      if prev < now {
        return false;
      }
      return true;
    }

    method ReleaseLockAndReset()
      requires Valid()
      modifies this`locked, store, retryManager
      ensures Valid()
      ensures store.data == old(store.data) - {lockKey}
      ensures !locked && retryManager.attemptCount == 0
    {
      store.Del(lockKey);
      locked := false;
      retryManager.Reset();
    }

    /** `get_lock_expiration`: the stored timestamp, 0 when the key is absent. */
    function GetLockExpiration(): (t: int)
      reads store
      ensures lockKey !in store.data ==> t == 0
      ensures lockKey in store.data ==> t == store.data[lockKey]
    {
      ToI(Lookup(store.data, lockKey))
    }

    /** GETSET of a fresh expiration; returns the previous timestamp (0 if absent). */
    method GetsetExpiration(now: int) returns (prev: int)
      modifies store
      ensures prev == ToI(Lookup(old(store.data), lockKey))
      ensures store.data == old(store.data)[lockKey := Expiration(now, timeout)]
    {
      var v := store.GetSet(lockKey, Expiration(now, timeout));
      prev := ToI(v);
    }

    method SetnxExpiration(now: int) returns (wasSet: bool)
      modifies store
      ensures wasSet <==> lockKey !in old(store.data)
      ensures store.data == SetnxPass(old(store.data), lockKey, Expiration(now, timeout)).db
    {
      wasSet := store.SetNx(lockKey, Expiration(now, timeout));
    }

    /** The steal path: when the stored lease is in the past, GETSET a fresh
        one (after another client's write `gap`) and take the lock only if
        the value GETSET returned is in the past too. */
    method AcquireLockIfExpired(now: int, gap: Edit) returns (held: bool)
      modifies this`locked, store
      ensures var p := StealPass(old(store.data), lockKey, now, Expiration(now, timeout), gap);
              store.data == p.db && locked == (old(locked) || p.won) && held == locked
    {
      if LockExpired(now) {
        store.Apply(lockKey, gap);
        var prev := GetsetExpiration(now);
        if now > prev {
          locked := true;
        }
      }
      held := locked;
    }

    /** A lease is expired when its timestamp is strictly before `now`; an
        absent key reads as 0, so it counts as expired for any positive `now`. */
    function LockExpired(now: int): (expired: bool)
      reads store
      ensures lockKey in store.data ==> (expired <==> store.data[lockKey] < now)
      ensures lockKey !in store.data ==> (expired <==> now > 0)
    {
      now > GetLockExpiration()
    }

    /** The fast path: SETNX of a fresh expiration takes the lock if the key was absent. */
    method TryToAcquireLock(now: int) returns (held: bool)
      modifies this`locked, store
      ensures var p := SetnxPass(old(store.data), lockKey, Expiration(now, timeout));
              store.data == p.db && locked == (old(locked) || p.won) && held == locked
    {
      var wasSet := SetnxExpiration(now);
      if wasSet {
        locked := true;
      }
      held := locked;
    }
  }

  /** A client of the class: a keeper with default settings on a store
      holding `db` locks, then unlocks at clock reading `later` with no
      other client writing during the unlock. The lock answers as `LockRun`
      says; when it took the lock and `later` is within the lease, the
      unlock answers true, the flag is cleared and the store is `db` without
      the lock key, however many retries the lock took. When the lock failed
      (RetryError), the unlock raises UnlockError. */
  method LockUnlockRoundTrip(db: Db, key: string, clock: nat -> int, rivals: nat -> Rival, later: int)
    returns (acquired: Outcome<bool>, released: Outcome<bool>, held: bool, finalDb: Db)
    ensures var run := LockRun(db, LockKeyPrefix + key, DefaultTimeout, clock, rivals, 0, DefaultMaxAttempts, 0);
            && acquired == (if run.locked then Ok(true) else Raised(RetryError))
            && (!run.locked ==> released == Raised(UnlockError) && !held && finalDb == run.db)
            && (run.locked && later <= Expiration(clock(run.passes - 1), DefaultTimeout) ==>
                  released == Ok(true) && !held && finalDb == db - {LockKeyPrefix + key})
  {
    var store := new Store(db);
    var keeper := new CaveKeeper(store, key, None, None);
    ghost var passes;
    acquired, passes := keeper.Lock(clock, rivals);
    ghost var run := LockRun(db, keeper.lockKey, DefaultTimeout, clock, rivals, 0, DefaultMaxAttempts, 0);
    if run.locked && later <= Expiration(clock(run.passes - 1), DefaultTimeout) {
      LockThenUnlockRestores(db, keeper.lockKey, DefaultTimeout, clock, rivals, 0, DefaultMaxAttempts, later);
    }
    released := keeper.Unlock(later, Keep, Keep);
    held := keeper.locked;
    finalDb := store.data;
  }
}
