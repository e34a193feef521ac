/**
 * What the lock protocol guarantees: the store each attempt leaves behind,
 * when reclamation succeeds, how many attempts the loop makes, what a
 * release touches, and the client test's acquire / acquire / release
 * sequence.
 */
module LockProperties {
  import opened Wrappers
  import opened JavaLong
  import opened Store
  import opened Runtime
  import opened LockProtocol

  /** With no foreign writes, applying the pending writes changes nothing. */
  lemma QuietArrival(env: Env, w: World)
    requires QuietFrom(env, w.ops)
    ensures Arrived(w.data, env.others, w.ops) == w.data && AtGet(env, w) == w.data && AtGetSet(env, w) == w.data
  {
  }

  /**
   * A key absent when the SETNX arrives is taken on the first attempt: the
   * store then maps it to this caller's expiry (`now + 60000 + 1` whenever
   * that fits in a `long`) in decimal, and no other key changes.
   */
  lemma FreshKeyAcquired(env: Env, w: World, lockKey: string)
    requires LockKey(lockKey) !in Arrived(w.data, env.others, w.ops)
    ensures var r := Acquire(env, w, lockKey);
      && r.outcome == Returned(true) && r.attempts == 1
      && r.world.data == Arrived(w.data, env.others, w.ops)[LockKey(lockKey) := Show(Expiry(env.Reading(w.calls)))]
      && Parse(r.world.data[LockKey(lockKey)]) == Some(Expiry(env.Reading(w.calls)))
  {
    ParseShow(Expiry(env.Reading(w.calls)));
  }

  /**
   * A stored timestamp not before the second clock reading means the lock
   * is held: the attempt loses without issuing GETSET, so it writes nothing.
   */
  lemma UnexpiredAttemptWritesNothing(env: Env, w: World, key: string)
    requires key in Arrived(w.data, env.others, w.ops)
    requires key in AtGet(env, w)
    requires Parse(AtGet(env, w)[key]).Some?
    requires Parse(AtGet(env, w)[key]).value >= env.Reading(w.calls + 1)
    ensures Attempt(env, w, key) == AttemptResult(Lost, World(AtGet(env, w), w.ops + 2, w.calls + 2, w.sleeps))
  {
  }

  /**
   * After a failed SETNX, the attempt wins exactly when the value read is
   * present, parses to a timestamp before the second clock reading, and the
   * GETSET swaps out that very value.
   */
  lemma ReclaimWinsOnlyOnMatch(env: Env, w: World, key: string)
    requires key in Arrived(w.data, env.others, w.ops)
    ensures var current := Lookup(AtGet(env, w), key);
      Attempt(env, w, key).verdict == Won <==>
        && current.Some?
        && Parse(current.value).Some?
        && Parse(current.value).value < env.Reading(w.calls + 1)
        && Lookup(AtGetSet(env, w), key) == current
  {
  }

  /**
   * Once GETSET is issued, this caller's expiry is in the store whether the
   * race was won or lost: a losing attempt overwrites the winner's value.
   */
  lemma ReclaimAttemptOverwrites(env: Env, w: World, key: string)
    requires key in Arrived(w.data, env.others, w.ops) && key in AtGet(env, w)
    requires Parse(AtGet(env, w)[key]).Some?
    requires Parse(AtGet(env, w)[key]).value < env.Reading(w.calls + 1)
    ensures var a := Attempt(env, w, key);
      && a.world.data == AtGetSet(env, w)[key := Show(Expiry(env.Reading(w.calls)))]
      && (a.verdict == Lost <==> Lookup(AtGetSet(env, w), key) != Some(AtGet(env, w)[key]))
  {
  }

  /**
   * A successful reclamation leaves a later timestamp than the one it
   * replaced, provided the expiry does not overflow and the attempt's two
   * clock readings are at most `expireMsecs + 1` ms apart.
   */
  lemma ReclaimAdvancesExpiry(env: Env, w: World, key: string)
    requires key in Arrived(w.data, env.others, w.ops)
    requires Attempt(env, w, key).verdict == Won
    requires env.Reading(w.calls) + ExpireMsecs + 1 <= LongMax
    requires env.Reading(w.calls + 1) <= env.Reading(w.calls) + ExpireMsecs + 1
    ensures key in AtGet(env, w) && Parse(AtGet(env, w)[key]).Some?
    ensures var stored := Attempt(env, w, key).world.data[key];
      && Parse(stored) == Some(Expiry(env.Reading(w.calls)))
      && Parse(AtGet(env, w)[key]).value < Parse(stored).value
  {
    ParseShow(Expiry(env.Reading(w.calls)));
  }

  /**
   * Two clients read the same stale value and race their GETSETs. This
   * client's GET found the stale value; the other client's GETSET, carrying
   * its expiry `firstNow + 60001`, lands between this client's GET and GETSET
   * and so swaps out the stale value itself; its win is not modelled beyond
   * that write. This client's GETSET then swaps out the other's expiry, which differs from the stale value as
   * long as this client's staleness reading is not after that expiry: this
   * client loses, and its own expiry is left in the store.
   */
  lemma ReclaimRaceLoserOverwrites(env: Env, w: World, key: string, firstNow: Long)
    requires key in Arrived(w.data, env.others, w.ops) && key in AtGet(env, w)
    requires Parse(AtGet(env, w)[key]).Some?
    requires Parse(AtGet(env, w)[key]).value < env.Reading(w.calls + 1)
    requires Pending(env.others, w.ops + 2) == [Put(key, Show(Expiry(firstNow)))]
    requires firstNow + ExpireMsecs + 1 <= LongMax
    requires env.Reading(w.calls + 1) <= firstNow + ExpireMsecs + 1
    ensures Lookup(AtGetSet(env, w), key) == Some(Show(Expiry(firstNow)))
    ensures var a := Attempt(env, w, key);
      && a.verdict == Lost
      && key in a.world.data
      && a.world.data[key] == Show(Expiry(env.Reading(w.calls)))
  {
    ParseShow(Expiry(firstNow));
  }

  /**
   * The loop makes at most 11 attempts; a `false` result comes only after
   * all 11 lost, having slept 11 times (`timeoutMsecs + 1000` ms in all, by
   * `TimeoutBudget`); a `true` result leaves under the lock key this caller's
   * expiry, computed from one of its own clock readings.
   */
  lemma AcquireAttemptsBounded(env: Env, w: World, lockKey: string)
    ensures Acquire(env, w, lockKey).attempts <= MaxAttempts
    ensures var r := Acquire(env, w, lockKey);
      r.outcome == Returned(false) ==>
        && r.attempts == MaxAttempts
        && r.world.sleeps == w.sleeps + MaxAttempts
    ensures var r := Acquire(env, w, lockKey);
      r.outcome == Returned(true) ==>
        && 1 <= r.attempts
        && LockKey(lockKey) in r.world.data
        && exists c :: w.calls <= c < r.world.calls &&
             r.world.data[LockKey(lockKey)] == Show(Expiry(env.Reading(c)))
  {
    var r := Acquire(env, w, lockKey);
    TimeoutBudget();
    RunWithinBudget(env, w, LockKey(lockKey), TimeoutMsecs, r);
    RunWonHoldsKey(env, w, LockKey(lockKey), TimeoutMsecs, r);
  }

  /**
   * While another holder's timestamp stays at or after every clock reading
   * and nothing interrupts the sleeps, every attempt loses: the loop returns
   * `false` after its whole budget, leaving the store as it was.
   */
  lemma {:induction false} HeldLockTimesOut(env: Env, w: World, key: string, timeout: int, stamp: Long)
    requires QuietFrom(env, w.ops) && UninterruptedFrom(env, w.sleeps)
    requires key in w.data && Parse(w.data[key]) == Some(stamp)
    requires forall i :: w.calls <= i < w.calls + 2 * AttemptBudget(timeout) ==> env.Reading(i) <= stamp
    ensures var r := Run(env, w, key, timeout, Top);
      && r.outcome == Returned(false)
      && r.attempts == AttemptBudget(timeout)
      && r.world == World(w.data, w.ops + 2 * r.attempts, w.calls + 2 * r.attempts, w.sleeps + r.attempts)
    decreases timeout + RetryMsecs
  {
    if timeout >= 0 {
      QuietArrival(env, w);
      assert env.Reading(w.calls + 1) <= stamp;
      UnexpiredAttemptWritesNothing(env, w, key);
      assert !env.Interrupted(w.sleeps);
      var lost := World(w.data, w.ops + 2, w.calls + 2, w.sleeps);
      RunStep(env, w, key, timeout, Lost, lost);
      HeldLockTimesOut(env, lost.(sleeps := w.sleeps + 1), key, timeout - RetryMsecs, stamp);
    }
  }

  /** With no foreign writes, one attempt writes at most the lock key. */
  lemma AttemptTouchesOnlyKey(env: Env, w: World, key: string, other: string)
    requires QuietFrom(env, w.ops)
    requires other != key
    ensures Lookup(Attempt(env, w, key).world.data, other) == Lookup(w.data, other)
  {
  }

  /** With no foreign writes, a whole acquisition changes no key but the lock key. */
  lemma {:induction false} RunTouchesOnlyKey(env: Env, w: World, key: string, timeout: int, other: string)
    requires QuietFrom(env, w.ops)
    requires other != key
    ensures Lookup(Run(env, w, key, timeout, Top).world.data, other) == Lookup(w.data, other)
    decreases timeout + RetryMsecs
  {
    if timeout >= 0 {
      var a := Attempt(env, w, key);
      AttemptTouchesOnlyKey(env, w, key, other);
      RunStep(env, w, key, timeout, a.verdict, a.world);
      if a.verdict == Lost && !env.Interrupted(a.world.sleeps) {
        var slept := a.world.(sleeps := a.world.sleeps + 1);
        assert QuietFrom(env, slept.ops);
        RunTouchesOnlyKey(env, slept, key, timeout - RetryMsecs, other);
      }
    }
  }

  /**
   * A lock value that is not a decimal `long` makes the first attempt throw
   * `NumberFormatException`, and `beginLock` does not catch it.
   */
  lemma MalformedValueThrows(env: Env, w: World, lockKey: string)
    requires QuietFrom(env, w.ops)
    requires LockKey(lockKey) in w.data && Parse(w.data[LockKey(lockKey)]) == None
    ensures var r := Acquire(env, w, lockKey);
      && r.outcome == Threw(NumberFormatException)
      && r.attempts == 1
      && Catch(r.outcome) == Threw(NumberFormatException)
  {
    QuietArrival(env, w);
    var a := Attempt(env, w, LockKey(lockKey));
    RunStep(env, w, LockKey(lockKey), TimeoutMsecs, a.verdict, a.world);
  }

  /** Releasing an absent lock changes nothing; releasing twice is releasing once. */
  lemma ReleaseIdempotent(env: Env, w: World, lockKey: string)
    requires QuietFrom(env, w.ops)
    ensures LockKey(lockKey) !in w.data ==> ReleaseStep(env, w, lockKey).data == w.data
    ensures ReleaseStep(env, ReleaseStep(env, w, lockKey), lockKey).data == ReleaseStep(env, w, lockKey).data
  {
  }

  /**
   * A lock left behind with a timestamp already past (a crashed holder) is
   * reclaimed on the first attempt, without waiting, and the new timestamp
   * is later than the old.
   */
  lemma StaleLockReclaimed(env: Env, w: World, lockKey: string, stale: Long)
    requires QuietFrom(env, w.ops)
    requires LockKey(lockKey) in w.data && w.data[LockKey(lockKey)] == Show(stale)
    requires stale < env.Reading(w.calls + 1)
    requires env.Reading(w.calls) + ExpireMsecs + 1 <= LongMax
    requires env.Reading(w.calls + 1) <= env.Reading(w.calls) + ExpireMsecs + 1
    ensures var r := Acquire(env, w, lockKey);
      && r.outcome == Returned(true)
      && r.attempts == 1
      && r.world.sleeps == w.sleeps
      && LockKey(lockKey) in r.world.data
      && Parse(r.world.data[LockKey(lockKey)]) == Some(env.Reading(w.calls) + ExpireMsecs + 1)
      && stale < env.Reading(w.calls) + ExpireMsecs + 1
  {
    var key := LockKey(lockKey);
    QuietArrival(env, w);
    assert key in w.data && w.data[key] == Show(stale);
    ParseShow(stale);
    ReclaimAdvancesExpiry(env, w, key);
    var a := Attempt(env, w, key);
    RunStep(env, w, key, TimeoutMsecs, a.verdict, a.world);
  }

  /**
   * The client test: release "2"; begin the lock (true); begin it again
   * while the first is unexpired (false, after the whole budget); release;
   * GET "lock:2" finds nothing. Stated for any resource name, a quiet store,
   * uninterrupted sleeps, and clock readings that stay within the first
   * lock's lifetime.
   */
  lemma BeginAcquireReleaseScenario(env: Env, w: World, lockKey: string)
    requires QuietFrom(env, w.ops) && UninterruptedFrom(env, w.sleeps)
    requires env.Reading(w.calls) + ExpireMsecs + 1 <= LongMax
    requires forall i :: w.calls < i <= w.calls + 2 * MaxAttempts ==>
      env.Reading(i) <= env.Reading(w.calls) + ExpireMsecs + 1
    ensures var w1 := ReleaseStep(env, w, lockKey);
      var r1 := Acquire(env, w1, lockKey);
      var r2 := Acquire(env, r1.world, lockKey);
      var w3 := ReleaseStep(env, r2.world, lockKey);
      && Catch(r1.outcome) == Returned(true)
      && Catch(r2.outcome) == Returned(false)
      && Lookup(w3.data, LockKey(lockKey)) == None
  {
    var key := LockKey(lockKey);
    var w1 := ReleaseStep(env, w, lockKey);
    QuietArrival(env, w);
    QuietArrival(env, w1);
    FreshKeyAcquired(env, w1, lockKey);
    var r1 := Acquire(env, w1, lockKey);
    assert r1.world.calls == w.calls + 1 && r1.world.ops == w.ops + 2 && r1.world.sleeps == w.sleeps;
    TimeoutBudget();
    HeldLockTimesOut(env, r1.world, key, TimeoutMsecs, env.Reading(w.calls) + ExpireMsecs + 1);
  }
}
