/** RedisCaveKeeper: the earlier single-pass version of the lock. It makes
    one SETNX attempt and one steal attempt, never retries, and has no
    unlock, so once its flag is set it stays set. */
module LegacyKeeper {
  import opened Outcomes
  import opened KeyValue
  import opened Lease

  const LockKeyPrefix: string := "lock:"
  const DefaultTimeout: int := 5

  class RedisCaveKeeper {
    const store: Store
    const lockKey: string
    const timeout: int
    var locked: bool

    /** The lock key is namespaced under "lock:"; the timeout defaults to 5. */
    constructor (store: Store, key: string, timeout: Option<int>)
      ensures this.store == store
      ensures lockKey == LockKeyPrefix + key
      ensures this.timeout == (if timeout.Some? then timeout.value else DefaultTimeout)
      ensures !locked
    {
      this.store := store;
      lockKey := LockKeyPrefix + key;
      this.timeout := if timeout.Some? then timeout.value else DefaultTimeout;
      locked := false;
    }

    function HasLock(): (held: bool)
      reads this
      ensures held <==> locked
    {
      locked
    }

    /** One acquisition pass at clock reading `now`, with other clients'
        writes at the gaps as `rv` says. Not yet locked: the result and the
        store are those of one acquisition pass. Already locked: the SETNX
        still runs (and writes if the key has gone), and the answer is true. */
    method Lock(now: int, rv: Rival) returns (held: bool)
      modifies this`locked, store
      ensures old(locked) ==>
                && held && locked
                && store.data == SetnxPass(ApplyEdit(old(store.data), lockKey, rv.atSetnx),
                                           lockKey, Expiration(now, timeout)).db
      ensures !old(locked) ==>
                var p := AcquirePass(old(store.data), lockKey, now, timeout, rv);
                store.data == p.db && locked == p.won && held == p.won
    {
      store.Apply(lockKey, rv.atSetnx);
      var got := TryToAcquireLock(now);
      if !got {
        store.Apply(lockKey, rv.atGet);
        got := AcquireLockIfExpired(now, rv.atGetset);
      }
      held := locked;
    }

    /** The steal path: GETSET only when the stored lease is in the past,
        and take the lock only if GETSET's previous value is in the past. */
    method AcquireLockIfExpired(now: int, gap: Edit) returns (held: bool)
      modifies this`locked, store
      ensures var p := StealPass(old(store.data), lockKey, now, Expiration(now, timeout), gap);
              store.data == p.db && locked == (old(locked) || p.won) && held == locked
    {
      if OtherLockExpired(now) {
        store.Apply(lockKey, gap);
        var prev := SecureSetExpiration(now);
        if now > prev {
          locked := true;
        }
      }
      held := locked;
    }

    /** The stored lease is strictly before `now`; an absent key reads as 0. */
    function OtherLockExpired(now: int): (expired: bool)
      reads store
      ensures lockKey in store.data ==> (expired <==> store.data[lockKey] < now)
      ensures lockKey !in store.data ==> (expired <==> now > 0)
    {
      now > ToI(Lookup(store.data, lockKey))
    }

    /** GETSET of a fresh expiration, returning the previous timestamp (0 if absent). */
    method SecureSetExpiration(now: int) returns (prev: int)
      modifies store
      ensures prev == ToI(Lookup(old(store.data), lockKey))
      ensures store.data == old(store.data)[lockKey := Expiration(now, timeout)]
    {
      var v := store.GetSet(lockKey, Expiration(now, timeout));
      prev := ToI(v);
    }

    /** The fast path: SETNX of a fresh expiration; takes the lock if the key
        was absent, and answers with the flag (true if it was already set). */
    method TryToAcquireLock(now: int) returns (held: bool)
      modifies this`locked, store
      ensures var p := SetnxPass(old(store.data), lockKey, Expiration(now, timeout));
              store.data == p.db && locked == (old(locked) || p.won) && held == locked
    {
      var wasSet := store.SetNx(lockKey, Expiration(now, timeout));
      if wasSet {
        locked := true;
      }
      held := locked;
    }
  }

  /** A key holding a lease that is not in the past (and no other client
      writing): the single pass fails and the store is unchanged. */
  lemma ValidLeaseRefused(db: Db, key: string, now: int, timeout: int)
    requires key in db && db[key] >= now
    ensures var p := AcquirePass(db, key, now, timeout, Quiet);
            !p.won && p.db == db
  {
  }
}
