# A verified model of `RedisClient`'s store-backed lock

`RedisClient` guards a resource named `k` with the store key `"lock:" + k`,
whose value is the decimal timestamp until which the lock holds.
`acquireLock` runs a bounded retry loop:

1. SETNX this caller's expiry, `now + 60000 + 1`. If the key was absent, the lock is taken.
2. Otherwise GET the stored value. If it parses to a timestamp before a fresh clock reading, the lock is stale.
3. For a stale lock, GETSET this caller's expiry. The caller wins only if the value swapped out is the one just read.
4. Failing all that, take 1000 off a 10000 ms budget, sleep 1000 ms and retry while the budget is not negative.

`beginLock` turns an interrupted sleep into `false`. `release` / `releaseLock` delete the key unconditionally.

The project has these modules:

- `Wrappers`: `Option`, standing for Java's `null`.
- `JavaLong`: the `long` range, its wrap-around, `String.valueOf(long)` as `Show` and `Long.parseLong` as `Parse`, with the round trip `Parse(Show(n)) == Some(n)`.
- `Store`: the store as a class with a `map` field and the four commands the lock issues. Other clients' writes come from a schedule: `others[i]` lands just before this client's i-th command. This is how interference between atomic commands is modelled.
- `Runtime`: `System.currentTimeMillis()` and `Thread.sleep` as a `Clock` class whose readings and interrupts are scripted sequences.
- `LockProtocol`: the protocol as functions of what the client observes.
  - `Attempt`: one loop body, big-step.
  - `Run`: the loop, one command at a time.
  - `Catch`: `beginLock`'s handler.
  - `ReleaseStep`: the release.
  - `ReclaimStep` and `CompareStep` take `Run` through the part of the loop body after SETNX, and `RunStep` links a whole turn of `Run` to `Attempt`. `SetNxStep` and `RetryStep` only unfold `Run` for the imperative proof. `RunWithinBudget` and `RunWonHoldsKey` bound the loop.
- `LockProperties`: what the protocol guarantees, as lemmas.
- `RedisLock`: class `RedisClient` with the imperative methods. `AcquireLock` is a `while` loop over the store and clock objects, and each method is proved to leave the outcome and the new state that the protocol functions give.

Three points where the code is narrower or looser than its comments and signatures suggest:

- `timeoutMsecs` (`src/main/java/redisclient/RedisClient.java:18`) is commented as the acquisition timeout in milliseconds, but the loop counts attempts: `timeout -= 1000` (:128) is taken off once per lost attempt, however long the attempt took. This gives at most 11 attempts and 11 sleeps.
- `acquireLock` declares `throws InterruptedException` (:105-107): an interrupted sleep ends the loop with that exception. Only `beginLock`'s handler (:58-60) turns it into `false`.
- Nothing in the code checks that a stored lock value is a timestamp. A value that does not parse makes `Long.parseLong` (:119) throw `NumberFormatException`, which `beginLock` does not catch (`LockProperties.MalformedValueThrows`).

## Model

| member | source | states |
|---|---|---|
| JavaLong.Show | src/main/java/redisclient/RedisClient.java:112 | `String.valueOf(long)` writes a non-empty string that starts with '-' exactly for negative values |
| JavaLong.ShowNat | src/main/java/redisclient/RedisClient.java:112 | the digits of a magnitude: at least one, and no leading zero unless the number is 0 |
| JavaLong.DigitsValueShowNat | src/main/java/redisclient/RedisClient.java:112 | reading back the digits of a natural number's rendering gives that number |
| JavaLong.ParseShow | src/main/java/redisclient/RedisClient.java:112-119 | `Long.parseLong(String.valueOf(n)) == n` for every `long`, so a timestamp this client writes always parses back to itself |
| JavaLong.ShowInjective | src/main/java/redisclient/RedisClient.java:112-122 | two expiries render equal exactly when they are equal, which is why the textual `equals` at :122 compares timestamps |
| JavaLong.DigitsValue | src/main/java/redisclient/RedisClient.java:119 | a string of digits has a value exactly when every character is a decimal digit |
| JavaLong.Parse | src/main/java/redisclient/RedisClient.java:119 | `Long.parseLong` accepts only an optional '+' or '-' followed by at least one decimal digit (leading zeros allowed), and a negative result only with a '-'. `ParseShow` shows it reads back every rendering `Show` writes |
| JavaLong.Wrap | src/main/java/redisclient/RedisClient.java:111 | `long` addition: the exact sum when it fits, the sum minus 2^64 just past the top of the range |
| LockProtocol.LockKey | src/main/java/redisclient/RedisClient.java:109 | the key is `"lock:"` followed by the resource name: prefix and name can be read back from it |
| LockProtocol.LockKeyInjective | src/main/java/redisclient/RedisClient.java:98-109 | acquire and release address the same key exactly when they name the same resource |
| LockProtocol.Expiry | src/main/java/redisclient/RedisClient.java:111 | the expiry is `now + 60000 + 1`, later than `now`, whenever that does not overflow |
| LockProtocol.Attempt | src/main/java/redisclient/RedisClient.java:111-125 | one attempt never sleeps, reads the clock once or twice, issues one to three commands, and a won attempt leaves this caller's expiry under the key |
| LockProtocol.BudgetClosedForm | src/main/java/redisclient/RedisClient.java:110-128 | `while (timeout >= 0)` with `timeout -= 1000` per turn allows `timeout / 1000 + 1` turns from a non-negative budget and none from a negative one |
| LockProtocol.TimeoutBudget | src/main/java/redisclient/RedisClient.java:18 | the 10000 ms `timeoutMsecs`, counted down by 1000 per turn of the loop at :108-129, allows 11 attempts, whose 1000 ms sleeps add up to `timeoutMsecs + 1000` |
| LockProtocol.ReclaimStep | src/main/java/redisclient/RedisClient.java:118-126 | from the GET on, the loop ends as the attempt's verdict says: true on a win, `NumberFormatException` on an unparsable value, and the retry step on a loss |
| LockProtocol.CompareStep | src/main/java/redisclient/RedisClient.java:119-126 | once GET has found a value, the staleness test and the GETSET comparison end the loop as the attempt's verdict says |
| LockProtocol.Run | src/main/java/redisclient/RedisClient.java:108-132 | the `while (timeout >= 0)` loop, one command, clock reading or sleep at a time: it never takes back a command, clock reading or sleep. `RunStep` shows each turn is one attempt, and `RunWithinBudget` bounds the turns |
| LockProtocol.Acquire | src/main/java/redisclient/RedisClient.java:107-109 | `acquireLock` runs the loop from its head with the whole `timeoutMsecs` budget on `"lock:" + lockKey`: at most 11 attempts, and `true` leaves that key in the store |
| LockProtocol.RunStep | src/main/java/redisclient/RedisClient.java:110-130 | one turn of the loop is one attempt. The loop returns true on a win. It throws `NumberFormatException` on an unparsable value. After a loss it either throws `InterruptedException` (interrupted sleep) or goes on from the head with 1000 less budget |
| LockProtocol.RunWithinBudget | src/main/java/redisclient/RedisClient.java:108-132 | the loop makes at most `timeout / 1000 + 1` attempts, and it returns false only after all of them, having slept once per attempt |
| LockProtocol.Turn | src/main/java/redisclient/RedisClient.java:110-130 | one turn of the loop either ends it after one attempt, with true only if the key holds the expiry from this turn's first clock reading, or sleeps once and leaves the loop to go on from the head with 1000 less budget |
| LockProtocol.RunWonHoldsKey | src/main/java/redisclient/RedisClient.java:111-124 | when the loop returns true, at least one attempt was made and the lock key holds this caller's expiry, computed from one of the clock readings the loop made |
| LockProtocol.Catch | src/main/java/redisclient/RedisClient.java:56-61 | `beginLock` never lets `InterruptedException` out: it becomes false. Every other outcome, including `NumberFormatException`, passes unchanged, and true comes only from a true acquisition |
| LockProtocol.ReleaseStep | src/main/java/redisclient/RedisClient.java:98-100 | after the release the lock key is absent, every other key reads as it did, and exactly one command was issued |
| LockProperties.QuietArrival | src/main/java/redisclient/RedisClient.java:114-121 | with no foreign writes, SETNX, GET and GETSET find the store as this client left it |
| LockProperties.FreshKeyAcquired | src/main/java/redisclient/RedisClient.java:111-115 | an absent key is taken on the first attempt. The key then holds this caller's expiry in decimal, which parses back to `Expiry(now)`, and no other key changes |
| LockProperties.UnexpiredAttemptWritesNothing | src/main/java/redisclient/RedisClient.java:114-129 | a stored timestamp not before the second clock reading makes the attempt lose without GETSET: the store is left as GET found it |
| LockProperties.ReclaimWinsOnlyOnMatch | src/main/java/redisclient/RedisClient.java:118-123 | after a refused SETNX, the attempt wins exactly when three things hold: GET found a value, it parses to a timestamp before the clock, and GETSET swapped out that very value |
| LockProperties.ReclaimAttemptOverwrites | src/main/java/redisclient/RedisClient.java:121-124 | once GETSET is issued, this caller's expiry is stored whether it wins or loses. It loses exactly when the swapped-out value differs from the one read |
| LockProperties.ReclaimAdvancesExpiry | src/main/java/redisclient/RedisClient.java:111-123 | a won reclamation stores a timestamp that parses to this caller's expiry and is later than the one it replaced (given a bounded gap between the two clock readings) |
| LockProperties.ReclaimRaceLoserOverwrites | src/main/java/redisclient/RedisClient.java:119-124 | when another client's GETSET of its own expiry lands between this client's GET and GETSET on a stale value, this client's GETSET swaps out the other's expiry, not the value it read, so this attempt loses; its own expiry is left under the key |
| LockProperties.AcquireAttemptsBounded | src/main/java/redisclient/RedisClient.java:107-133 | `acquireLock` makes at most 11 attempts. False comes only after all 11, with 11 sleeps (`timeoutMsecs + 1000` ms). True leaves under the lock key this caller's expiry, from one of its own clock readings |
| LockProperties.HeldLockTimesOut | src/main/java/redisclient/RedisClient.java:108-132 | while another holder's timestamp is at or after every clock reading, every attempt loses: the loop returns false after the whole budget and the store is unchanged |
| LockProperties.AttemptTouchesOnlyKey | src/main/java/redisclient/RedisClient.java:111-125 | with no foreign writes, one attempt changes no key but the lock key |
| LockProperties.RunTouchesOnlyKey | src/main/java/redisclient/RedisClient.java:107-133 | with no foreign writes, a whole acquisition changes no key but the lock key |
| LockProperties.MalformedValueThrows | src/main/java/redisclient/RedisClient.java:119 | a lock value that is not a decimal `long` makes the first attempt throw `NumberFormatException`, which `beginLock` lets through |
| LockProperties.ReleaseIdempotent | src/main/java/redisclient/RedisClient.java:98-100 | releasing an absent lock changes nothing, and releasing twice leaves the store as releasing once |
| LockProperties.StaleLockReclaimed | src/main/java/redisclient/RedisClient.java:114-123 | a lock left with a past timestamp is reclaimed on the first attempt, with no sleep. The new stored timestamp is this caller's expiry and is later than the stale one |
| LockProperties.BeginAcquireReleaseScenario | src/test/java/RedisClientTest.java:45-56 | release, then begin (true), then begin again while the first lock is unexpired (false), then release: GET of the lock key finds nothing |
| Store.Apply | src/main/java/redisclient/RedisClient.java:114-121 | other clients' writes leave every key none of them names as it was |
| Store.Store.SetNx | src/main/java/redisclient/RedisClient.java:114 | SETNX answers 1 and sets the key when it was absent, and answers 0 and changes nothing when it was present |
| Store.Store.Get | src/main/java/redisclient/RedisClient.java:118 | GET answers the value held, or null, and changes nothing |
| Store.Store.GetSet | src/main/java/redisclient/RedisClient.java:121 | GETSET stores the new value unconditionally and answers the value it replaced, or null |
| Store.Store.Del | src/main/java/redisclient/RedisClient.java:99 | DEL removes the key and leaves every other key |
| Runtime.Clock.CurrentTimeMillis | src/main/java/redisclient/RedisClient.java:111 | the i-th clock call answers the i-th scripted reading |
| Runtime.Clock.Sleep | src/main/java/redisclient/RedisClient.java:129 | the j-th sleep throws `InterruptedException` exactly when the script says so |
| RedisLock.RedisClient.Reclaim | src/main/java/redisclient/RedisClient.java:118-125 | the GET / parse / compare / GETSET part of the loop body leaves the store and clock, and ends the loop with the outcome, exactly as `Run` does from the GET |
| RedisLock.RedisClient.Pass | src/main/java/redisclient/RedisClient.java:111-129 | one turn of the loop body either ends the loop with `Run`'s outcome and state, or leaves the state from which `Run` goes on with 1000 less budget |
| RedisLock.RedisClient.AcquireLock | src/main/java/redisclient/RedisClient.java:107-133 | the imperative loop returns the outcome and leaves the store and clock that `Acquire` gives, so every property above holds of it |
| RedisLock.RedisClient.BeginLock | src/main/java/redisclient/RedisClient.java:53-62 | `beginLock` ends as `Catch` of the acquisition, in the acquisition's final state, and never throws `InterruptedException` |
| RedisLock.RedisClient.Release | src/main/java/redisclient/RedisClient.java:98-100 | `release` leaves the state `ReleaseStep` gives: the lock key gone, nothing else changed |
| RedisLock.RedisClient.ReleaseLock | src/main/java/redisclient/RedisClient.java:93-96 | `releaseLock` is `release` on the pool's store |

## Left out

- Connection pooling and resource handling (`JedisPool`, `getResource`, `close`): network I/O. Every connection is the one shared `Store` object.
- `set`, `get`, `setEntity` and `getEntity`: they are plain store access and JSON encoding, not part of the lock. The client test's final `get` is modelled as `Lookup`.
- Logging (`logger.warn`, `logger.error`): no behaviour.
- The `synchronized` modifiers: they only serialise callers inside one process. Other callers appear only as the schedule of foreign writes between this client's commands. This is not a model of concurrent threads.
- Store failures (connection errors, wrong value types): the store always answers.
- The real duration of `Thread.sleep(1000)`: time passing shows only in later clock readings.
- The clock, interrupt and foreign-write schedules are finite scripts. Past a script's end the clock reads 0, no sleep is interrupted and no foreign writes land. A script long enough for the run describes any run.
- JavaLong.Parse: only ASCII digits are accepted. `Long.parseLong` also accepts other Unicode decimal digits, which `String.valueOf` never writes.
- LockProperties.ReclaimAdvancesExpiry: this needs the attempt's two clock readings to be at most `expireMsecs + 1` ms apart, and no overflow of `now + 60001`. A non-decreasing clock is not enough: a gap of more than 60001 ms lets the reclaimed timestamp be later than the new one.
- LockProperties.StaleLockReclaimed: stated with no overflow of `now + 60001`, and with the attempt's two clock readings at most 60001 ms apart. `Expiry` models the wrap-around itself.
- LockProperties.BeginAcquireReleaseScenario: stated with no overflow of `now + 60001`, and with the later clock readings inside the first lock's lifetime, as the client test runs them back to back.
- LockProtocol.LockKeyInjective: resource names are Dafny strings, which cannot be null. In Java, `lockPrefix + lockKey` turns a null name into `"lock:null"`, so a null name maps to the key of the name `"null"`, and the two compete for one lock.
- LockProperties.ReclaimRaceLoserOverwrites: stated on one `Attempt` with the other client's GETSET in the foreign-write schedule, rather than on two interleaved `Run`s, so it states only that this client loses: the other client's own result is not stated. It needs this client's staleness reading to be at most the other client's expiry, and no overflow of that expiry.
