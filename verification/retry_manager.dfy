/** The direct client's retry manager: an operation is attempted at most
    five times, with an exponentially growing wait between failed attempts,
    and the first success ends the loop. The operation may change the
    client's state, so it is modelled as a step `op(s, attempt)` that returns
    the next state and the attempt's outcome; the waits are recorded rather
    than slept. */
module RetryManager {
  import opened Wrappers

  const MaxRetries: nat := 5
  const BaseDelay: nat := 1000
  const MaxDelay: nat := 30000

  function Pow(b: nat, e: nat): nat {
    if e == 0 then 1 else b * Pow(b, e - 1)
  }

  function Min(a: int, b: int): int {
    if a <= b then a else b
  }

  /** The wait, in milliseconds, after failed attempt `attempt`:
      `min(baseDelay * 1.5^(attempt - 1), maxDelay)`. Only the first four
      attempts are followed by a wait, and for those the power of 1.5 times
      1000 is a whole number, so integer arithmetic is exact. */
  function Delay(attempt: nat): (d: nat)
    requires 1 <= attempt < MaxRetries
    ensures d * Pow(2, attempt - 1) == Min(BaseDelay * Pow(3, attempt - 1), MaxDelay * Pow(2, attempt - 1))
    ensures d <= MaxDelay
  {
    assert Pow(2, 0) == 1 && Pow(3, 0) == 1;
    assert Pow(2, 1) == 2 && Pow(3, 1) == 3;
    assert Pow(2, 2) == 4 && Pow(3, 2) == 9;
    assert Pow(2, 3) == 8 && Pow(3, 3) == 27;
    Min(BaseDelay * Pow(3, attempt - 1) / Pow(2, attempt - 1), MaxDelay)
  }

  /** The waits are exactly 1000, 1500, 2250 and 3375 ms. */
  lemma DelaySchedule()
    ensures Delay(1) == 1000 && Delay(2) == 1500 && Delay(3) == 2250 && Delay(4) == 3375
  {
    assert Pow(3, 3) == 27 && Pow(2, 3) == 8;
  }

  /** The waits that precede attempt `n + 1`: one after each of the first `n`
      attempts. */
  function Schedule(n: nat): (w: seq<nat>)
    requires n < MaxRetries
    ensures |w| == n && forall i | 0 <= i < n :: w[i] == Delay(i + 1)
  {
    if n == 0 then [] else Schedule(n - 1) + [Delay(n)]
  }

  /** The end of a retry loop: the final state, the value the loop resolves
      or rejects with, how many attempts ran, and the waits between them. */
  datatype Run<S, T> = Run(state: S, result: Result<T, string>, attempts: nat, sleeps: seq<nat>)

  /** `executeWithRetry` from attempt `attempt` on. */
  function RetryFrom<S, T>(op: (S, nat) -> (S, Result<T, string>), s: S, attempt: nat): (r: Run<S, T>)
    requires 1 <= attempt <= MaxRetries
    ensures attempt <= r.attempts <= MaxRetries
    ensures r.result.Failure? ==> r.attempts == MaxRetries
    ensures |r.sleeps| == r.attempts - attempt
    ensures forall i | 0 <= i < |r.sleeps| :: r.sleeps[i] == Delay(attempt + i)
    decreases MaxRetries - attempt
  {
    var (next, outcome) := op(s, attempt);
    if outcome.Success? || attempt == MaxRetries then Run(next, outcome, attempt, [])
    else
      Prefixed([Delay(attempt)], RetryFrom(op, next, attempt + 1))
  }

  /** A run ends at an attempt that succeeds or is the last one. */
  lemma RetryStops<S, T>(op: (S, nat) -> (S, Result<T, string>), s: S, attempt: nat)
    requires 1 <= attempt <= MaxRetries
    requires op(s, attempt).1.Success? || attempt == MaxRetries
    ensures RetryFrom(op, s, attempt) == Run(op(s, attempt).0, op(s, attempt).1, attempt, [])
  {
  }

  /** A failed attempt before the last is followed by a wait and the next
      attempt, from the state the failed attempt left. */
  lemma RetryContinues<S, T>(op: (S, nat) -> (S, Result<T, string>), s: S, attempt: nat)
    requires 1 <= attempt < MaxRetries
    requires op(s, attempt).1.Failure?
    ensures RetryFrom(op, s, attempt) == Prefixed([Delay(attempt)], RetryFrom(op, op(s, attempt).0, attempt + 1))
  {
  }

  /** `executeWithRetry(operation)`. */
  function Retry<S, T>(op: (S, nat) -> (S, Result<T, string>), s: S): (r: Run<S, T>)
    ensures 1 <= r.attempts <= MaxRetries
    ensures r.result.Failure? ==> r.attempts == MaxRetries
    ensures r.sleeps == Schedule(r.attempts - 1)
  {
    RetryFrom(op, s, 1)
  }

  /** The same loop written as the source writes it, with a counter. */
  method ExecuteWithRetry<S, T>(op: (S, nat) -> (S, Result<T, string>), s: S) returns (r: Run<S, T>)
    ensures r == Retry(op, s)
  {
    var state := s;
    var sleeps: seq<nat> := [];
    var attempt := 1;
    while true
      invariant 1 <= attempt <= MaxRetries
      invariant Retry(op, s) == Prefixed(sleeps, RetryFrom(op, state, attempt))
      decreases MaxRetries - attempt
    {
      var (next, outcome) := op(state, attempt);
      if outcome.Success? || attempt == MaxRetries {
        return Run(next, outcome, attempt, sleeps);
      }
      PrefixedAppend(sleeps, Delay(attempt), RetryFrom(op, next, attempt + 1));
      sleeps := sleeps + [Delay(attempt)];
      state := next;
      attempt := attempt + 1;
    }
  }

  /** A run whose waits are preceded by `before`. */
  function Prefixed<S, T>(before: seq<nat>, r: Run<S, T>): Run<S, T> {
    r.(sleeps := before + r.sleeps)
  }

  lemma PrefixedAppend<S, T>(before: seq<nat>, d: nat, r: Run<S, T>)
    ensures Prefixed(before + [d], r) == Prefixed(before, Prefixed([d], r))
  {
    assert before + [d] + r.sleeps == before + ([d] + r.sleeps);
  }

  /** An operation whose outcome depends only on the attempt number. */
  function Stateless<T>(outcome: nat -> Result<T, string>): (op: (bool, nat) -> (bool, Result<T, string>)) {
    (s: bool, n: nat) => (s, outcome(n))
  }

  /** The attempt a stateless operation's loop stops at: the first success
      from `attempt` on, or the last attempt. */
  function FirstSuccess<T>(outcome: nat -> Result<T, string>, attempt: nat): (n: nat)
    requires 1 <= attempt <= MaxRetries
    ensures attempt <= n <= MaxRetries
    ensures outcome(n).Success? || n == MaxRetries
    decreases MaxRetries - attempt
  {
    if outcome(attempt).Success? || attempt == MaxRetries then attempt
    else FirstSuccess(outcome, attempt + 1)
  }

  /** Every attempt before the stopping one failed, and the stopping one
      succeeded exactly when some attempt from `attempt` on would. */
  lemma {:induction false} FirstSuccessIsFirst<T>(outcome: nat -> Result<T, string>, attempt: nat)
    requires 1 <= attempt <= MaxRetries
    ensures var n := FirstSuccess(outcome, attempt);
            && (forall i | attempt <= i < n :: outcome(i).Failure?)
            && (outcome(n).Success? <==> exists i | attempt <= i <= MaxRetries :: outcome(i).Success?)
    decreases MaxRetries - attempt
  {
    if outcome(attempt).Failure? && attempt < MaxRetries {
      FirstSuccessIsFirst(outcome, attempt + 1);
      var n := FirstSuccess(outcome, attempt + 1);
      if exists i | attempt <= i <= MaxRetries :: outcome(i).Success? {
        var i :| attempt <= i <= MaxRetries && outcome(i).Success?;
        assert attempt + 1 <= i;
      }
    }
  }

  /** The loop on a stateless operation stops at the first success, with
      that attempt's outcome. */
  lemma {:induction false} StatelessRunStops<T>(outcome: nat -> Result<T, string>, attempt: nat)
    requires 1 <= attempt <= MaxRetries
    ensures var r := RetryFrom(Stateless(outcome), true, attempt);
            r.attempts == FirstSuccess(outcome, attempt) && r.result == outcome(r.attempts)
    decreases MaxRetries - attempt
  {
    var op := Stateless(outcome);
    assert op(true, attempt) == (true, outcome(attempt));
    if outcome(attempt).Success? || attempt == MaxRetries {
      RetryStops(op, true, attempt);
    } else {
      RetryContinues(op, true, attempt);
      StatelessRunStops(outcome, attempt + 1);
    }
  }

  /** An operation that leaves the state alone whenever it fails runs like
      a stateless one: the loop stops at the first success from `attempt`
      on (or the last attempt), with that attempt's state and outcome.
      `outcome` is the operation's outcome on the starting state. */
  lemma {:induction false} UnchangedOnFailureStops<S, T>(op: (S, nat) -> (S, Result<T, string>), s: S, attempt: nat,
                                                        outcome: nat -> Result<T, string>)
    requires 1 <= attempt <= MaxRetries
    requires forall n: nat :: outcome(n) == op(s, n).1
    requires forall n: nat :: op(s, n).1.Failure? ==> op(s, n).0 == s
    ensures var r := RetryFrom(op, s, attempt);
            && r.attempts == FirstSuccess(outcome, attempt)
            && r.state == op(s, r.attempts).0 && r.result == op(s, r.attempts).1
    decreases MaxRetries - attempt
  {
    if op(s, attempt).1.Success? || attempt == MaxRetries {
      RetryStops(op, s, attempt);
    } else {
      RetryContinues(op, s, attempt);
      UnchangedOnFailureStops(op, s, attempt + 1, outcome);
    }
  }

  /** For a stateless operation the loop returns the first success, and
      rethrows the fifth error when all five attempts fail. */
  lemma RetryFindsFirstSuccess<T>(outcome: nat -> Result<T, string>, attempt: nat)
    requires 1 <= attempt <= MaxRetries
    ensures var r := RetryFrom(Stateless(outcome), true, attempt);
            && (r.result.Success? ==> r.result == outcome(r.attempts))
            && (forall i | attempt <= i < r.attempts :: outcome(i).Failure?)
            && (r.result.Failure? ==> r.result == outcome(MaxRetries))
            && (r.result.Success? <==> exists i | attempt <= i <= MaxRetries :: outcome(i).Success?)
  {
    StatelessRunStops(outcome, attempt);
    FirstSuccessIsFirst(outcome, attempt);
  }

  /** A run that takes all five attempts waits 1000, 1500, 2250 and 3375 ms. */
  lemma FullSchedule()
    ensures Schedule(MaxRetries - 1) == [1000, 1500, 2250, 3375]
  {
    DelaySchedule();
    var w := Schedule(MaxRetries - 1);
    assert w[0] == 1000 && w[1] == 1500 && w[2] == 2250 && w[3] == 3375;
  }

  /** The source's promise about `executeWithRetry`, for an operation that
      always fails: five attempts, four waits, and the last error. */
  lemma AlwaysFailingOperation<T>(outcome: nat -> Result<T, string>)
    requires forall i :: outcome(i).Failure?
    ensures Retry(Stateless(outcome), true).attempts == MaxRetries
    ensures Retry(Stateless(outcome), true).result == outcome(MaxRetries)
    ensures Retry(Stateless(outcome), true).sleeps == [1000, 1500, 2250, 3375]
  {
    RetryFindsFirstSuccess(outcome, 1);
    DelaySchedule();
  }
}
