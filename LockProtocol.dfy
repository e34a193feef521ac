/**
 * The lock protocol of `RedisClient` as functions of the state it observes:
 * one acquisition attempt (`Attempt`), the bounded retry loop around it
 * (`Run`), `beginLock`'s exception handling (`Catch`) and the release
 * (`ReleaseStep`), followed by what they guarantee.
 */
module LockProtocol {
  import opened Wrappers
  import opened JavaLong
  import opened Store
  import opened Runtime

  /** How long a lock is honoured before it may be reclaimed (ms). */
  const ExpireMsecs: int := 60 * 1000
  /** The retry budget the loop counts down (ms). */
  const TimeoutMsecs: int := 10 * 1000
  /** What each failed attempt takes off the budget, and how long it sleeps (ms). */
  const RetryMsecs: int := 1000
  const LockPrefix: string := "lock:"
  /** Attempts the budget allows: 10000, 9000, ..., 0. */
  const MaxAttempts: nat := 11

  /** The store key guarding the resource named `lockKey`. */
  function LockKey(lockKey: string): (key: string)
    ensures |key| == |LockPrefix| + |lockKey|
    ensures key[..|LockPrefix|] == LockPrefix && key[|LockPrefix|..] == lockKey
  {
    LockPrefix + lockKey
  }

  /** Distinct resources are guarded by distinct keys. */
  lemma LockKeyInjective(a: string, b: string)
    ensures LockKey(a) == LockKey(b) <==> a == b
  {
  }

  /** The timestamp an attempt that read the clock at `now` writes: `now + expireMsecs + 1`, in `long` arithmetic. */
  function Expiry(now: Long): (t: Long)
    ensures now + ExpireMsecs + 1 <= LongMax ==> t == now + ExpireMsecs + 1 && t > now
  {
    Wrap(now + ExpireMsecs + 1)
  }

  /** Everything outside this client that the protocol's behaviour depends on: the clock's script and the other clients' writes. */
  datatype Env = Env(readings: seq<Long>, interrupts: seq<bool>, others: seq<seq<Write>>) {
    /** What the i-th clock call returns (`ReadingAt` of the script). */
    function Reading(i: nat): Long {
      ReadingAt(readings, i)
    }

    /** Whether the j-th sleep is interrupted (`InterruptedAt` of the script). */
    predicate Interrupted(j: nat) {
      InterruptedAt(interrupts, j)
    }
  }

  /** The store's contents, and how many store commands, clock readings and sleeps this client has used. */
  datatype World = World(data: map<string, string>, ops: nat, calls: nat, sleeps: nat)

  datatype Exception = InterruptedException | NumberFormatException

  /** How a Java call ends: it returns a boolean, or it throws. */
  datatype Outcome = Returned(acquired: bool) | Threw(exception: Exception)

  /** How one attempt ends: the lock is ours, we must retry, or the stored value did not parse. */
  datatype Verdict = Won | Lost | Malformed

  datatype AttemptResult = AttemptResult(verdict: Verdict, world: World)

  datatype RunResult = RunResult(outcome: Outcome, world: World, attempts: nat) {
    function End(): (Outcome, World) {
      (outcome, world)
    }
  }

  /** The store as an attempt's GET and GETSET find it (when its SETNX found the key). */
  function AtGet(env: Env, w: World): map<string, string> {
    Apply(Arrived(w.data, env.others, w.ops), Pending(env.others, w.ops + 1))
  }

  function AtGetSet(env: Env, w: World): map<string, string> {
    Apply(AtGet(env, w), Pending(env.others, w.ops + 2))
  }

  /**
   * One pass of the loop body: SETNX our expiry; failing that, GET the
   * stored value and, if it parses to a timestamp before a fresh clock
   * reading, GETSET our expiry and win only if the value swapped out is the
   * one just read.
   */
  function Attempt(env: Env, w: World, key: string): (a: AttemptResult)
    ensures a.world.sleeps == w.sleeps
    ensures w.calls < a.world.calls <= w.calls + 2 && w.ops < a.world.ops <= w.ops + 3
    ensures a.verdict == Won ==>
      key in a.world.data && a.world.data[key] == Show(Expiry(env.Reading(w.calls)))
  {
    var expiresStr := Show(Expiry(env.Reading(w.calls)));
    var m0 := Arrived(w.data, env.others, w.ops);
    if key !in m0 then
      AttemptResult(Won, World(m0[key := expiresStr], w.ops + 1, w.calls + 1, w.sleeps))
    else
      var m1 := AtGet(env, w);
      var afterGet := World(m1, w.ops + 2, w.calls + 1, w.sleeps);
      match Lookup(m1, key)
      case None => AttemptResult(Lost, afterGet)
      case Some(current) =>
        match Parse(current)
        case None => AttemptResult(Malformed, afterGet)
        case Some(stamp) =>
          if !(stamp < env.Reading(w.calls + 1)) then
            AttemptResult(Lost, afterGet.(calls := w.calls + 2))
          else
            var m2 := AtGetSet(env, w);
            var previous := Lookup(m2, key);
            var verdict := if previous == Some(current) then Won else Lost;
            AttemptResult(verdict, World(m2[key := expiresStr], w.ops + 3, w.calls + 2, w.sleeps))
  }

  /**
   * How many attempts a budget of `timeout` ms allows before the loop's guard
   * fails: each lost turn spends 1000 of it, and `while (timeout >= 0)` stops
   * once it is negative.
   */
  function AttemptBudget(timeout: int): nat
    decreases timeout + RetryMsecs
  {
    if timeout < 0 then 0 else AttemptBudget(timeout - RetryMsecs) + 1
  }

  /** The budget in closed form: `timeout / 1000 + 1` attempts for a non-negative `timeout`. */
  lemma {:induction false} BudgetClosedForm(timeout: int)
    ensures AttemptBudget(timeout) == if timeout < 0 then 0 else timeout / RetryMsecs + 1
    decreases timeout + RetryMsecs
  {
    if timeout >= 0 {
      BudgetClosedForm(timeout - RetryMsecs);
    }
  }

  /**
   * Where `acquireLock`'s loop stands: at its head, or inside the body just
   * before one of its commands, with the strings the body has computed so far.
   */
  datatype Phase =
    | Top                                          // test `timeout >= 0`
    | SetNx                                        // read the clock, SETNX
    | Get(expiresStr: string)                      // SETNX refused: GET
    | Compare(expiresStr: string, current: string) // parse what GET read, read the clock, compare
    | Swap(expiresStr: string, current: string)    // stale: GETSET
    | Retry                                        // the attempt lost: take 1000 off, sleep

  function Rank(at: Phase): nat {
    match at
    case Top => 5
    case SetNx => 4
    case Get(_) => 3
    case Compare(_, _) => 2
    case Swap(_, _) => 1
    case Retry => 0
  }

  /**
   * The loop `while (timeout >= 0)`, one command or clock reading at a time,
   * from phase `at` on: attempt; on a loss take 1000 off the budget and sleep;
   * an interrupted sleep or an unparsable stored value ends the loop with an
   * exception. `attempts` counts the SETNX commands issued.
   */
  function Run(env: Env, w: World, key: string, timeout: int, at: Phase): (r: RunResult)
    requires at.Top? || timeout >= 0
    ensures w.ops <= r.world.ops && w.calls <= r.world.calls && w.sleeps <= r.world.sleeps
    decreases timeout + RetryMsecs, Rank(at)
  {
    match at
    case Top =>
      if timeout < 0 then RunResult(Returned(false), w, 0) else Run(env, w, key, timeout, SetNx)
    case SetNx =>
      var expiresStr := Show(Expiry(env.Reading(w.calls)));
      var m := Arrived(w.data, env.others, w.ops);
      if key !in m then RunResult(Returned(true), World(m[key := expiresStr], w.ops + 1, w.calls + 1, w.sleeps), 1)
      else
        var rest := Run(env, World(m, w.ops + 1, w.calls + 1, w.sleeps), key, timeout, Get(expiresStr));
        rest.(attempts := rest.attempts + 1)
    case Get(expiresStr) =>
      var m := Arrived(w.data, env.others, w.ops);
      var next := w.(data := m, ops := w.ops + 1);
      (match Lookup(m, key)
       case None => Run(env, next, key, timeout, Retry)
       case Some(current) => Run(env, next, key, timeout, Compare(expiresStr, current)))
    case Compare(expiresStr, current) =>
      (match Parse(current)
       case None => RunResult(Threw(NumberFormatException), w, 0)
       case Some(stamp) =>
         var next := w.(calls := w.calls + 1);
         if stamp < env.Reading(w.calls) then Run(env, next, key, timeout, Swap(expiresStr, current))
         else Run(env, next, key, timeout, Retry))
    case Swap(expiresStr, current) =>
      var m := Arrived(w.data, env.others, w.ops);
      var next := w.(data := m[key := expiresStr], ops := w.ops + 1);
      if Lookup(m, key) == Some(current) then RunResult(Returned(true), next, 0)
      else Run(env, next, key, timeout, Retry)
    case Retry =>
      var slept := w.(sleeps := w.sleeps + 1);
      if env.Interrupted(w.sleeps) then RunResult(Threw(InterruptedException), slept, 0)
      else Run(env, slept, key, timeout - RetryMsecs, Top)
  }

  /**
   * From the parse of the value GET read on, `Run` follows the rest of
   * `Attempt`: it ends as a won or a malformed attempt does, or reaches the
   * retry in the world a lost attempt leaves.
   */
  lemma CompareStep(env: Env, w: World, key: string, timeout: int)
    requires timeout >= 0
    requires key in Arrived(w.data, env.others, w.ops) && key in AtGet(env, w)
    ensures var a := Attempt(env, w, key);
      var current := AtGet(env, w)[key];
      var afterGet := World(AtGet(env, w), w.ops + 2, w.calls + 1, w.sleeps);
      var rest := Run(env, afterGet, key, timeout, Compare(Show(Expiry(env.Reading(w.calls))), current));
      && (a.verdict == Won ==> rest == RunResult(Returned(true), a.world, 0))
      && (a.verdict == Malformed ==> rest == RunResult(Threw(NumberFormatException), a.world, 0))
      && (a.verdict == Lost ==> rest == Run(env, a.world, key, timeout, Retry))
  {
    var expiresStr := Show(Expiry(env.Reading(w.calls)));
    var current := AtGet(env, w)[key];
    var w2 := World(AtGet(env, w), w.ops + 2, w.calls + 1, w.sleeps);
    var w3 := w2.(calls := w.calls + 2);
    if Parse(current).Some? && Parse(current).value < env.Reading(w.calls + 1) {
      var m2 := AtGetSet(env, w);
      assert Arrived(w3.data, env.others, w3.ops) == m2;
      assert Run(env, w2, key, timeout, Compare(expiresStr, current))
          == Run(env, w3, key, timeout, Swap(expiresStr, current));
      if Lookup(m2, key) != Some(current) {
        var w4 := World(m2[key := expiresStr], w.ops + 3, w.calls + 2, w.sleeps);
        assert Run(env, w3, key, timeout, Swap(expiresStr, current)) == Run(env, w4, key, timeout, Retry);
      }
    } else if Parse(current).Some? {
      assert Run(env, w2, key, timeout, Compare(expiresStr, current)) == Run(env, w3, key, timeout, Retry);
    }
  }

  /**
   * From the GET on, `Run` follows the rest of `Attempt`: it ends as a won or
   * a malformed attempt does, or reaches the retry in the world a lost
   * attempt leaves.
   */
  lemma ReclaimStep(env: Env, w: World, key: string, timeout: int)
    requires timeout >= 0
    requires key in Arrived(w.data, env.others, w.ops)
    ensures var a := Attempt(env, w, key);
      var afterSetNx := World(Arrived(w.data, env.others, w.ops), w.ops + 1, w.calls + 1, w.sleeps);
      var rest := Run(env, afterSetNx, key, timeout, Get(Show(Expiry(env.Reading(w.calls)))));
      && (a.verdict == Won ==> rest == RunResult(Returned(true), a.world, 0))
      && (a.verdict == Malformed ==> rest == RunResult(Threw(NumberFormatException), a.world, 0))
      && (a.verdict == Lost ==> rest == Run(env, a.world, key, timeout, Retry))
  {
    var expiresStr := Show(Expiry(env.Reading(w.calls)));
    var w1 := World(Arrived(w.data, env.others, w.ops), w.ops + 1, w.calls + 1, w.sleeps);
    var m1 := AtGet(env, w);
    assert Arrived(w1.data, env.others, w1.ops) == m1;
    var w2 := World(m1, w.ops + 2, w.calls + 1, w.sleeps);
    if key !in m1 {
      assert Run(env, w1, key, timeout, Get(expiresStr)) == Run(env, w2, key, timeout, Retry);
    } else {
      assert Run(env, w1, key, timeout, Get(expiresStr)) == Run(env, w2, key, timeout, Compare(expiresStr, m1[key]));
      CompareStep(env, w, key, timeout);
    }
  }

  /**
   * `Run` unfolded from the loop head through SETNX, for `Pass`'s proof: it
   * states no more than `Run`'s definition.
   */
  lemma SetNxStep(env: Env, w: World, key: string, timeout: int)
    requires timeout >= 0
    ensures var expiresStr := Show(Expiry(env.Reading(w.calls)));
      var m := Arrived(w.data, env.others, w.ops);
      Run(env, w, key, timeout, Top).End()
        == if key !in m then (Returned(true), World(m[key := expiresStr], w.ops + 1, w.calls + 1, w.sleeps))
           else Run(env, World(m, w.ops + 1, w.calls + 1, w.sleeps), key, timeout, Get(expiresStr)).End()
  {
    assert Run(env, w, key, timeout, Top) == Run(env, w, key, timeout, SetNx);
  }

  /** `Run`'s retry step unfolded, for `Pass`'s proof: it states no more than `Run`'s definition. */
  lemma RetryStep(env: Env, w: World, key: string, timeout: int)
    requires timeout >= 0
    ensures var slept := w.(sleeps := w.sleeps + 1);
      Run(env, w, key, timeout, Retry)
        == if env.Interrupted(w.sleeps) then RunResult(Threw(InterruptedException), slept, 0)
           else Run(env, slept, key, timeout - RetryMsecs, Top)
  {
  }

  /**
   * One turn of the loop is one `Attempt`: from the loop head, `Run` ends as
   * the attempt's verdict says, or goes on from the head after the sleep.
   */
  lemma RunStep(env: Env, w: World, key: string, timeout: int, verdict: Verdict, w': World)
    requires timeout >= 0
    requires Attempt(env, w, key) == AttemptResult(verdict, w')
    ensures verdict == Won ==> Run(env, w, key, timeout, Top) == RunResult(Returned(true), w', 1)
    ensures verdict == Malformed ==>
      Run(env, w, key, timeout, Top) == RunResult(Threw(NumberFormatException), w', 1)
    ensures verdict == Lost && env.Interrupted(w'.sleeps) ==>
      Run(env, w, key, timeout, Top) == RunResult(Threw(InterruptedException), w'.(sleeps := w'.sleeps + 1), 1)
    ensures verdict == Lost && !env.Interrupted(w'.sleeps) ==>
      var rest := Run(env, w'.(sleeps := w'.sleeps + 1), key, timeout - RetryMsecs, Top);
      Run(env, w, key, timeout, Top) == rest.(attempts := rest.attempts + 1)
  {
    assert Run(env, w, key, timeout, Top) == Run(env, w, key, timeout, SetNx);
    var m0 := Arrived(w.data, env.others, w.ops);
    if key in m0 {
      ReclaimStep(env, w, key, timeout);
      var rest := Run(env, World(m0, w.ops + 1, w.calls + 1, w.sleeps), key, timeout,
                      Get(Show(Expiry(env.Reading(w.calls)))));
      assert Run(env, w, key, timeout, SetNx) == rest.(attempts := rest.attempts + 1);
      if verdict == Lost {
        assert rest == Run(env, w', key, timeout, Retry);
        RetryStep(env, w', key, timeout);
      }
    }
  }

  /**
   * One turn of the loop, as the inductions over the loop need it: either it
   * ends the loop after one attempt, with an exception or with `true` and
   * this caller's expiry under the key, or it goes on from the head at
   * `next`, one attempt and one sleep later.
   */
  lemma Turn(env: Env, w: World, key: string, timeout: int) returns (goesOn: bool, next: World)
    requires timeout >= 0
    ensures var r := Run(env, w, key, timeout, Top);
      !goesOn ==>
        && r.attempts == 1
        && r.outcome != Returned(false)
        && (r.outcome == Returned(true) ==>
              key in r.world.data && r.world.data[key] == Show(Expiry(env.Reading(w.calls))) && w.calls < r.world.calls)
    ensures var r := Run(env, w, key, timeout, Top);
      var rest := Run(env, next, key, timeout - RetryMsecs, Top);
      goesOn ==> r == rest.(attempts := rest.attempts + 1) && next.sleeps == w.sleeps + 1 && w.calls < next.calls
  {
    var a := Attempt(env, w, key);
    RunStep(env, w, key, timeout, a.verdict, a.world);
    goesOn := a.verdict == Lost && !env.Interrupted(a.world.sleeps);
    next := a.world.(sleeps := a.world.sleeps + 1);
  }

  /**
   * The loop never makes more attempts than its budget allows, and it returns
   * `false` only once the whole budget is spent, one sleep per attempt.
   */
  lemma {:induction false} RunWithinBudget(env: Env, w: World, key: string, timeout: int, r: RunResult)
    requires r == Run(env, w, key, timeout, Top)
    ensures r.attempts <= AttemptBudget(timeout)
    ensures r.outcome == Returned(false) ==>
      r.attempts == AttemptBudget(timeout) && r.world.sleeps == w.sleeps + r.attempts
    decreases timeout + RetryMsecs
  {
    if timeout >= 0 {
      var goesOn, next := Turn(env, w, key, timeout);
      if goesOn {
        RunWithinBudget(env, next, key, timeout - RetryMsecs, Run(env, next, key, timeout - RetryMsecs, Top));
      }
    }
  }

  /**
   * When the loop returns `true`, some attempt was made and the lock key holds
   * this caller's own expiry, computed from one of the clock readings the run made.
   */
  lemma {:induction false} RunWonHoldsKey(env: Env, w: World, key: string, timeout: int, r: RunResult)
    requires r == Run(env, w, key, timeout, Top)
    ensures r.outcome == Returned(true) ==>
      && 1 <= r.attempts
      && key in r.world.data
      && exists c :: w.calls <= c < r.world.calls && r.world.data[key] == Show(Expiry(env.Reading(c)))
    decreases timeout + RetryMsecs
  {
    if timeout >= 0 {
      var goesOn, next := Turn(env, w, key, timeout);
      if goesOn {
        RunWonHoldsKey(env, next, key, timeout - RetryMsecs, Run(env, next, key, timeout - RetryMsecs, Top));
      } else if r.outcome == Returned(true) {
        assert w.calls <= w.calls < r.world.calls;
      }
    }
  }

  /** `acquireLock`'s budget allows `MaxAttempts` attempts, whose sleeps add up to `timeoutMsecs + 1000` ms. */
  lemma TimeoutBudget()
    ensures AttemptBudget(TimeoutMsecs) == MaxAttempts
    ensures MaxAttempts * RetryMsecs == TimeoutMsecs + RetryMsecs
  {
    BudgetClosedForm(TimeoutMsecs);
  }

  /**
   * `acquireLock(jedis, lockKey)`: the loop from its head with the whole
   * `timeoutMsecs` budget, on the prefixed key. It makes at most
   * `MaxAttempts` attempts, and a `true` result leaves the key in the store.
   */
  function Acquire(env: Env, w: World, lockKey: string): (r: RunResult)
    ensures r.attempts <= MaxAttempts
    ensures r.outcome == Returned(true) ==> LockKey(lockKey) in r.world.data
  {
    var r := Run(env, w, LockKey(lockKey), TimeoutMsecs, Top);
    TimeoutBudget();
    RunWithinBudget(env, w, LockKey(lockKey), TimeoutMsecs, r);
    RunWonHoldsKey(env, w, LockKey(lockKey), TimeoutMsecs, r);
    r
  }

  /** `beginLock`'s handler: an `InterruptedException` becomes `false`; any other outcome passes through. */
  function Catch(o: Outcome): (r: Outcome)
    ensures r != Threw(InterruptedException)
    ensures o == Threw(InterruptedException) ==> r == Returned(false)
    ensures o != Threw(InterruptedException) ==> r == o
    ensures r == Returned(true) <==> o == Returned(true)
  {
    if o == Threw(InterruptedException) then Returned(false) else o
  }

  /** `release(jedis, lockKey)`: DEL of the lock key, with no check of who holds it. */
  function ReleaseStep(env: Env, w: World, lockKey: string): (w': World)
    ensures LockKey(lockKey) !in w'.data
    ensures forall k :: k != LockKey(lockKey) ==> Lookup(w'.data, k) == Lookup(Arrived(w.data, env.others, w.ops), k)
    ensures w'.ops == w.ops + 1 && w'.calls == w.calls && w'.sleeps == w.sleeps
  {
    w.(data := Arrived(w.data, env.others, w.ops) - {LockKey(lockKey)}, ops := w.ops + 1)
  }

  /** No other client writes from this client's `ops`-th command on. */
  ghost predicate QuietFrom(env: Env, ops: nat) {
    forall i :: ops <= i ==> Pending(env.others, i) == []
  }

  /** No sleep from the `sleeps`-th on is interrupted. */
  ghost predicate UninterruptedFrom(env: Env, sleeps: nat) {
    forall j :: sleeps <= j ==> !env.Interrupted(j)
  }
}
