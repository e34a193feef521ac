/**
 * `RedisClient`'s lock methods as imperative code over the store and the
 * clock, each proved to behave as the protocol functions of
 * `LockProtocol` say.
 */
module RedisLock {
  import opened Wrappers
  import opened JavaLong
  import opened Store
  import opened Runtime
  import opened LockProtocol

  class RedisClient {
    /** The store every connection taken from the pool talks to. */
    const pool: Store
    const clock: Clock

    constructor (pool: Store, clock: Clock)
      ensures this.pool == pool && this.clock == clock
    {
      this.pool := pool;
      this.clock := clock;
    }

    /** What lies outside this client when it talks to `jedis`. */
    function EnvOf(jedis: Store): Env {
      Env(clock.readings, clock.interrupts, jedis.others)
    }

    function WorldOf(jedis: Store): World
      reads jedis, clock
    {
      World(jedis.data, jedis.ops, clock.calls, clock.sleeps)
    }

    /** `beginLock(key)`: acquire, turning an interrupted sleep into `false`. */
    method BeginLock(key: string) returns (r: Outcome)
      modifies pool, clock
      ensures var (outcome, world) := Acquire(EnvOf(pool), old(WorldOf(pool)), key).End();
        r == Catch(outcome) && WorldOf(pool) == world
      ensures r != Threw(InterruptedException)
    {
      r := AcquireLock(pool, key);
      if r == Threw(InterruptedException) {
        r := Returned(false);
      }
    }

    /** `releaseLock(key)`. */
    method ReleaseLock(key: string)
      modifies pool
      ensures WorldOf(pool) == ReleaseStep(EnvOf(pool), old(WorldOf(pool)), key)
    {
      Release(pool, key);
    }

    /** `release(jedis, lockKey)`: deletes the lock key, whoever holds it. */
    method Release(jedis: Store, lockKey: string)
      modifies jedis
      ensures WorldOf(jedis) == ReleaseStep(EnvOf(jedis), old(WorldOf(jedis)), lockKey)
    {
      var _ := jedis.Del(LockPrefix + lockKey);
    }

    /**
     * The part of `acquireLock`'s loop body after a refused SETNX: GET the
     * stored value and, if it parses to a timestamp before a fresh clock
     * reading, GETSET `expiresStr` and win if the value swapped out is the one
     * read. `done` says the loop ends here, with result `r`; otherwise `Run`
     * goes on with the retry.
     */
    method Reclaim(jedis: Store, key: string, timeout: int, expiresStr: string) returns (done: bool, r: Outcome)
      requires timeout >= 0
      modifies jedis, clock
      ensures var run := Run(EnvOf(jedis), old(WorldOf(jedis)), key, timeout, Get(expiresStr)).End();
        && (done ==> (r, WorldOf(jedis)) == run)
        && (!done ==> Run(EnvOf(jedis), WorldOf(jedis), key, timeout, Retry).End() == run)
    {
      ghost var goal := Run(EnvOf(jedis), WorldOf(jedis), key, timeout, Get(expiresStr)).End();
      var currentValueStr := jedis.Get(key);
      if currentValueStr.Some? {
        assert Run(EnvOf(jedis), WorldOf(jedis), key, timeout, Compare(expiresStr, currentValueStr.value)).End() == goal;
        var current := Parse(currentValueStr.value);
        if current.None? {
          return true, Threw(NumberFormatException);
        }
        var now := clock.CurrentTimeMillis();
        if current.value < now {
          assert Run(EnvOf(jedis), WorldOf(jedis), key, timeout, Swap(expiresStr, currentValueStr.value)).End() == goal;
          var oldValueStr := jedis.GetSet(key, expiresStr);
          if oldValueStr.Some? && oldValueStr.value == currentValueStr.value {
            return true, Returned(true);
          }
        }
      }
      return false, Returned(false);
    }

    /**
     * One turn of `acquireLock`'s loop body: SETNX this caller's expiry;
     * failing that, `Reclaim`; when the attempt lost, a 1000 ms sleep.
     * `done` says the loop ends here, with result `r`; otherwise `Run` goes on
     * from the loop head with 1000 less budget.
     */
    method Pass(jedis: Store, key: string, timeout: int) returns (done: bool, r: Outcome)
      requires timeout >= 0
      modifies jedis, clock
      ensures var run := Run(EnvOf(jedis), old(WorldOf(jedis)), key, timeout, Top).End();
        && (done ==> (r, WorldOf(jedis)) == run)
        && (!done ==> Run(EnvOf(jedis), WorldOf(jedis), key, timeout - RetryMsecs, Top).End() == run)
    {
      ghost var goal := Run(EnvOf(jedis), WorldOf(jedis), key, timeout, Top).End();
      SetNxStep(EnvOf(jedis), WorldOf(jedis), key, timeout);
      var expires := clock.CurrentTimeMillis();
      var expiresStr := Show(Expiry(expires));
      var setnx := jedis.SetNx(key, expiresStr);
      if setnx == 1 {
        return true, Returned(true);
      }
      assert Run(EnvOf(jedis), WorldOf(jedis), key, timeout, Get(expiresStr)).End() == goal;
      done, r := Reclaim(jedis, key, timeout, expiresStr);
      if done {
        return;
      }
      RetryStep(EnvOf(jedis), WorldOf(jedis), key, timeout);
      var interrupted := clock.Sleep(RetryMsecs);
      if interrupted {
        return true, Threw(InterruptedException);
      }
    }

    /**
     * `acquireLock(jedis, lockKey)`: up to eleven turns of the loop body,
     * each taking 1000 off the budget when it does not end the loop.
     */
    method AcquireLock(jedis: Store, lockKey: string) returns (r: Outcome)
      modifies jedis, clock
      ensures (r, WorldOf(jedis)) == Acquire(EnvOf(jedis), old(WorldOf(jedis)), lockKey).End()
    {
      var timeout := TimeoutMsecs;
      var key := LockPrefix + lockKey;
      while timeout >= 0
        invariant -RetryMsecs <= timeout <= TimeoutMsecs
        invariant Run(EnvOf(jedis), WorldOf(jedis), key, timeout, Top).End()
          == Acquire(EnvOf(jedis), old(WorldOf(jedis)), lockKey).End()
        decreases timeout + RetryMsecs
      {
        var done;
        done, r := Pass(jedis, key, timeout);
        if done {
          return;
        }
        timeout := timeout - RetryMsecs;
      }
      return Returned(false);
    }
  }
}
