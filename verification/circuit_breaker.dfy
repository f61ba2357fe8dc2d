/** The HTTP fallback's circuit breaker. Every request goes through
    `execute`: while OPEN and within the recovery timeout the request is
    refused without running; after the timeout the breaker is HALF_OPEN and
    the request runs. Failures are counted and time-stamped, five of them
    open the breaker, and any success resets the count. The clock is the
    parameter `now` (ms) and the request's outcome is the parameter
    `outcome`, since the request itself is network code. */
module CircuitBreaker {
  import opened Wrappers

  const FailureThreshold: nat := 5
  const RecoveryTimeout: int := 60000

  datatype State = Closed | Open | HalfOpen

  datatype Breaker = Breaker(state: State, failures: nat, lastFailure: int)

  const Initial := Breaker(Closed, 0, 0)

  /** The breaker's invariant: it is CLOSED exactly while fewer than five
      failures are on the count. */
  predicate Valid(b: Breaker) {
    b.state == Closed <==> b.failures < FailureThreshold
  }

  lemma InitialValid()
    ensures Valid(Initial)
  {
  }

  /** `onSuccess`: the count is reset and a HALF_OPEN breaker closes. */
  function OnSuccess(b: Breaker): (r: Breaker)
    ensures r.failures == 0 && r.lastFailure == b.lastFailure
    ensures r.state == if b.state == HalfOpen then Closed else b.state
  {
    b.(failures := 0, state := if b.state == HalfOpen then Closed else b.state)
  }

  /** `onFailure` at time `now`: the count grows, the time is recorded, and
      the breaker opens once the count reaches the threshold. */
  function OnFailure(b: Breaker, now: int): (r: Breaker)
    ensures r.failures == b.failures + 1 && r.lastFailure == now
    ensures r.state == if b.failures + 1 >= FailureThreshold then Open else b.state
  {
    Breaker(if b.failures + 1 >= FailureThreshold then Open else b.state, b.failures + 1, now)
  }

  /** Whether `execute` at time `now` refuses without running. */
  predicate Refuses(b: Breaker, now: int) {
    b.state == Open && now - b.lastFailure <= RecoveryTimeout
  }

  /** What one `execute` call leaves behind: the breaker, the value the call
      resolves or rejects with, and whether the operation ran. */
  datatype Execution<T> = Execution(breaker: Breaker, result: Result<T, string>, ran: bool)

  /** `execute(operation)` at time `now`, where the operation, if run,
      resolves or rejects as `outcome`. */
  function Execute<T>(b: Breaker, now: int, outcome: Result<T, string>): (r: Execution<T>)
    ensures Refuses(b, now) ==> r == Execution(b, Failure("Circuit breaker is OPEN"), false)
    ensures !Refuses(b, now) ==> r.ran && r.result == outcome
    ensures r.ran && outcome.Success? ==> r.breaker.state == Closed && r.breaker.failures == 0
    ensures r.ran && outcome.Failure? ==> r.breaker.failures == b.failures + 1 && r.breaker.lastFailure == now
    ensures r.ran && outcome.Failure? && b.failures + 1 >= FailureThreshold ==> r.breaker.state == Open
    ensures Valid(b) ==> Valid(r.breaker)
  {
    if b.state == Open && now - b.lastFailure <= RecoveryTimeout then
      Execution(b, Failure("Circuit breaker is OPEN"), false)
    else
      var admitted := if b.state == Open then b.(state := HalfOpen) else b;
      match outcome
      case Success(_) => Execution(OnSuccess(admitted), outcome, true)
      case Failure(_) => Execution(OnFailure(admitted, now), outcome, true)
  }

  /** The breaker after a run of failed requests, one per timestamp. */
  function FailAll(b: Breaker, times: seq<int>): Breaker
    decreases |times|
  {
    if times == [] then b else FailAll(Execute<bool>(b, times[0], Failure("request failed")).breaker, times[1..])
  }

  /** From a fresh breaker, five failed requests open it, and the next
      request within the recovery timeout is refused. */
  lemma FiveFailuresOpen(t1: int, t2: int, t3: int, t4: int, t5: int)
    ensures FailAll(Initial, [t1, t2, t3, t4, t5]) == Breaker(Open, 5, t5)
    ensures forall now | now - t5 <= RecoveryTimeout :: Refuses(FailAll(Initial, [t1, t2, t3, t4, t5]), now)
  {
    var ts := [t1, t2, t3, t4, t5];
    assert ts[1..] == [t2, t3, t4, t5];
    assert ts[1..][1..] == [t3, t4, t5];
    assert ts[1..][1..][1..] == [t4, t5];
    assert ts[1..][1..][1..][1..] == [t5];
    var f := Failure("request failed");
    var b1 := Execute<bool>(Initial, t1, f).breaker;
    assert b1 == Breaker(Closed, 1, t1);
    var b2 := Execute<bool>(b1, t2, f).breaker;
    assert b2 == Breaker(Closed, 2, t2);
    var b3 := Execute<bool>(b2, t3, f).breaker;
    assert b3 == Breaker(Closed, 3, t3);
    var b4 := Execute<bool>(b3, t4, f).breaker;
    assert b4 == Breaker(Closed, 4, t4);
    assert FailAll(b4, [t5]) == Breaker(Open, 5, t5);
    assert FailAll(b3, [t4, t5]) == FailAll(b4, [t5]);
    assert FailAll(b2, [t3, t4, t5]) == FailAll(b3, [t4, t5]);
    assert FailAll(b1, [t2, t3, t4, t5]) == FailAll(b2, [t3, t4, t5]);
    assert FailAll(Initial, ts) == FailAll(b1, [t2, t3, t4, t5]);
  }

  /** A failed trial request from HALF_OPEN reopens the breaker, because
      entering HALF_OPEN does not reset the count. */
  lemma HalfOpenFailureReopens<T>(b: Breaker, now: int, err: string)
    requires Valid(b) && b.state == Open && now - b.lastFailure > RecoveryTimeout
    ensures Execute<T>(b, now, Failure(err)).ran
    ensures Execute<T>(b, now, Failure(err)).breaker == Breaker(Open, b.failures + 1, now)
  {
  }

  /** A successful trial request from HALF_OPEN closes the breaker. */
  lemma HalfOpenSuccessCloses<T>(b: Breaker, now: int, v: T)
    requires b.state == Open && now - b.lastFailure > RecoveryTimeout
    ensures Execute(b, now, Success(v)) == Execution(Breaker(Closed, 0, b.lastFailure), Success(v), true)
  {
  }
}
