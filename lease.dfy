/** The lease protocol as functions on the store's contents: one acquisition
    pass (fast SETNX path, then the GETSET-guarded steal of an expired lease)
    and the release check. Both keeper classes are specified by these. */
module Lease {
  import opened Outcomes
  import opened KeyValue

  /** The valid-until timestamp a holder writes: one second past the timeout. */
  function Expiration(now: int, timeout: int): (t: int)
    ensures t - now == timeout + 1
    ensures timeout >= 0 ==> t > now
  {
    now + timeout + 1
  }

  /** What other clients write to the lock key at each gap of one pass:
      before our SETNX, between it and our GET, and between that GET and
      our GETSET. */
  datatype Rival = Rival(atSetnx: Edit, atGet: Edit, atGetset: Edit)

  /** No other client touches the key during the pass. */
  const Quiet: Rival := Rival(Keep, Keep, Keep)

  /** The store after a step, and whether the step took the lock. */
  datatype Pass = Pass(db: Db, won: bool)

  /** Fast path: SETNX of the expiration; won only if the key was absent. */
  function SetnxPass(db: Db, key: string, exp: int): (p: Pass)
    ensures p.won <==> key !in db
    ensures p.db == if p.won then db[key := exp] else db
  {
    if key !in db then Pass(db[key := exp], true) else Pass(db, false)
  }

  /** Steal path, starting from the store our GET reads: if that value is in
      the past, GETSET the new expiration (after the rival's write `gap`) and
      win only if the value GETSET returned is in the past too. */
  function StealPass(db: Db, key: string, now: int, exp: int, gap: Edit): (p: Pass)
    ensures var swapped := ApplyEdit(db, key, gap);
            p.won <==> now > ToI(Lookup(db, key)) && now > ToI(Lookup(swapped, key))
    ensures now > ToI(Lookup(db, key)) ==> p.db == ApplyEdit(db, key, gap)[key := exp]
    ensures !(now > ToI(Lookup(db, key))) ==> p == Pass(db, false)
    ensures gap == Keep ==> (p.won <==> now > ToI(Lookup(db, key)))
  {
    if now > ToI(Lookup(db, key)) then
      var swapped := ApplyEdit(db, key, gap);
      Pass(swapped[key := exp], now > ToI(Lookup(swapped, key)))
    else
      Pass(db, false)
  }

  /** One pass of the acquisition loop at clock reading `now`. */
  function AcquirePass(db: Db, key: string, now: int, timeout: int, rv: Rival): (p: Pass)
    ensures forall k :: k != key ==> Lookup(p.db, k) == Lookup(db, k)
    ensures p.won ==> Lookup(p.db, key) == Some(Expiration(now, timeout))
    ensures rv == Quiet ==> (p.won <==> key !in db || db[key] < now)
    ensures rv == Quiet && !p.won ==> p.db == db
  {
    var exp := Expiration(now, timeout);
    var fast := SetnxPass(ApplyEdit(db, key, rv.atSetnx), key, exp);
    if fast.won then fast
    else StealPass(ApplyEdit(fast.db, key, rv.atGet), key, now, exp, rv.atGetset)
  }

  /** The store our GET reads when the fast path fails. */
  function SeenByGet(db: Db, key: string, rv: Rival): Db
  {
    ApplyEdit(ApplyEdit(db, key, rv.atSetnx), key, rv.atGet)
  }

  /** The steal guard: when the key is present at SETNX time, the pass wins
      exactly when both the value read and the value GETSET returned are in
      the past; the new expiration is written whenever the read value was in
      the past, even when the race is lost; otherwise nothing is written. */
  lemma StealGuard(db: Db, key: string, now: int, timeout: int, rv: Rival)
    requires key in ApplyEdit(db, key, rv.atSetnx)
    ensures var p := AcquirePass(db, key, now, timeout, rv);
            var seen := SeenByGet(db, key, rv);
            var swapped := ApplyEdit(seen, key, rv.atGetset);
            && (p.won <==> now > ToI(Lookup(seen, key)) && now > ToI(Lookup(swapped, key)))
            && (now > ToI(Lookup(seen, key)) ==> p.db == swapped[key := Expiration(now, timeout)])
            && (!(now > ToI(Lookup(seen, key))) ==> p.db == seen)
  {
  }

  /** The lost race of a steal: we read an expired lease, another client
      extends it before our GETSET lands; we do not take the lock, yet the
      store holds the expiration we wrote. */
  lemma LostStealStillWrites(db: Db, key: string, now: int, timeout: int, extended: int)
    requires key in db && db[key] < now
    requires extended >= now
    ensures var p := AcquirePass(db, key, now, timeout, Rival(Keep, Keep, Put(extended)));
            !p.won && p.db == db[key := Expiration(now, timeout)]
  {
  }

  /** Two clients A and B both read the same expired lease; A's GETSET lands
      first, so B's GETSET returns A's expiration. A wins; B loses as long as
      its clock is not past A's lease. */
  lemma TwoStealersOneWinner(db: Db, key: string, ta: int, tb: int, timeout: int)
    requires key in db && db[key] < ta && db[key] < tb
    requires tb <= Expiration(ta, timeout)
    ensures AcquirePass(db, key, ta, timeout, Quiet).won
    ensures !AcquirePass(db, key, tb, timeout, Rival(Keep, Keep, Put(Expiration(ta, timeout)))).won
  {
  }

  /** After a won pass at time t, a quiet pass by any other client at a time
      not past the lease loses and leaves the store unchanged. */
  lemma ExclusionWhileLeaseValid(db: Db, key: string, t: int, t2: int, timeout: int, rv: Rival)
    requires AcquirePass(db, key, t, timeout, rv).won
    requires t2 <= Expiration(t, timeout)
    ensures var held := AcquirePass(db, key, t, timeout, rv).db;
            var other := AcquirePass(held, key, t2, timeout, Quiet);
            !other.won && other.db == held
  {
  }

  /** The store after unlock's check, and whether unlock may delete the key. */
  datatype Release = Release(db: Db, safe: bool)

  /** unlock's check: a GET (after the rival's write `atGet`) that must not
      show an expired lease, then a GETSET of a fresh expiration (after the
      rival's write `atGetset`) whose returned value must not be in the past. */
  function ReleaseGuard(db: Db, key: string, now: int, timeout: int, atGet: Edit, atGetset: Edit): (r: Release)
    ensures forall k :: k != key ==> Lookup(r.db, k) == Lookup(db, k)
    ensures r.safe ==> Lookup(r.db, key) == Some(Expiration(now, timeout))
    ensures atGet == Keep && atGetset == Keep ==> (r.safe <==> ToI(Lookup(db, key)) >= now)
    ensures atGet == Keep && atGetset == Keep && !r.safe ==> r.db == db
  {
    var seen := ApplyEdit(db, key, atGet);
    if now > ToI(Lookup(seen, key)) then Release(seen, false)
    else
      var swapped := ApplyEdit(seen, key, atGetset);
      Release(swapped[key := Expiration(now, timeout)], !(ToI(Lookup(swapped, key)) < now))
  }

  /** The two ways the release check fails: the lease read is already in the
      past (nothing written), or the value GETSET returned is in the past
      (the fresh expiration has been written). */
  lemma ReleaseGuardFailures(db: Db, key: string, now: int, timeout: int, atGet: Edit, atGetset: Edit)
    ensures var r := ReleaseGuard(db, key, now, timeout, atGet, atGetset);
            var seen := ApplyEdit(db, key, atGet);
            var swapped := ApplyEdit(seen, key, atGetset);
            && (ToI(Lookup(seen, key)) < now ==> !r.safe && r.db == seen)
            && (ToI(Lookup(seen, key)) >= now ==>
                  r.db == swapped[key := Expiration(now, timeout)] &&
                  (r.safe <==> ToI(Lookup(swapped, key)) >= now))
  {
  }

  /** A stale write (a SET of a past timestamp) between unlock's GET and
      GETSET fails the release check, but our GETSET has already re-extended
      the lease; so a second release check by the same (still locked)
      instance, before that extension runs out, passes. */
  lemma SecondReleaseAfterStaleWritePasses(db: Db, key: string, now: int, now2: int, timeout: int, stale: int)
    requires ToI(Lookup(db, key)) >= now
    requires stale < now
    requires now2 <= Expiration(now, timeout)
    ensures var first := ReleaseGuard(db, key, now, timeout, Keep, Put(stale));
            !first.safe && ReleaseGuard(first.db, key, now2, timeout, Keep, Keep).safe
  {
  }

  /** Another client steals the lease between unlock's GET and GETSET (its
      clock `t2` already past the stored lease) and writes its own, later,
      expiration: our GETSET returns that future value, so the release check
      passes and unlock goes on to delete the other client's lease. */
  lemma OverwriteDuringReleasePasses(db: Db, key: string, now: int, t2: int, timeout: int)
    requires ToI(Lookup(db, key)) >= now
    requires ToI(Lookup(db, key)) < t2 && timeout >= 0
    ensures ReleaseGuard(db, key, now, timeout, Keep, Put(Expiration(t2, timeout))).safe
  {
  }
}
