/** The direct messaging client's bookkeeping: the connection state guard
    of `connect`, the broker client it files in the connection pool, message
    routing by topic, command publishing with its metrics, the broker events
    that degrade the status, and `disconnect`. The broker, the HTTP
    fallback's own connection and the clock are outside the model: what the
    outside world does during each attempt, and each command's latency, are
    parameters. */
module MqttClient {
  import opened Wrappers
  import opened Text
  import opened StatusParser
  import opened Commands
  import RetryManager
  import HealthMonitor
  import ConnectionPool

  datatype ConnState = Disconnected | Connecting | Connected | Reconnecting

  /** The status record the client reports to its listeners. */
  datatype Status = Status(
    gate: GateState, garage: GarageState, connected: bool,
    rawGate: Option<string>, rawGarage: Option<string>,
    quality: Quality, lastError: Option<string>, connType: ConnectionType, latency: Option<int>)

  /** The counters of `IConnectionMetrics` the model tracks. */
  datatype Metrics = Metrics(
    attempts: nat, successful: nat, failed: nat,
    sent: nat, received: nat, totalLatency: int, avgLatency: real)

  /** A connection pool is a `Map`, so its keys are distinct. */
  type PoolMap = p: ConnectionPool.Pool | ConnectionPool.DistinctKeys(p) witness []

  /** The client: connection state and type, reported status, metrics, the
      client id it connects with, the broker client it holds (`this.client`),
      the health monitor, the connection pool, and every broker client ended
      so far, in order. */
  datatype Client = Client(
    state: ConnState, connType: ConnectionType, status: Status, metrics: Metrics,
    clientId: string, current: Option<ConnectionPool.Client>, monitor: HealthMonitor.Monitor,
    pool: PoolMap, ended: seq<ConnectionPool.Client>)

  const InitialStatus := Status(GateUnknown, GarageClosed, false, None, None, QualityDisconnected, None, NoConnection, None)

  /** A fresh service; `randomHex` stands for the six random hex digits of
      its client id. */
  function Initial(randomHex: string): Client {
    Client(Disconnected, NoConnection, InitialStatus, Metrics(0, 0, 0, 0, 0, 0, 0.0),
           "gate-control-optimized-" + randomHex, None, HealthMonitor.Initial, [], [])
  }

  /** The one broker URL `getOptimalMqttUrl` ever returns. */
  const BrokerUrl: string := "ws://89.24.76.191:9001/mqtt"

  /** The key the client's broker connection is filed under in the pool. */
  function PoolKey(c: Client): string {
    ConnectionPool.Key(BrokerUrl, c.clientId)
  }

  // ------------------------------------------------------------- connect

  const AlreadyConnecting: string := "Connection already in progress"

  /** What the outside world does during one attempt of `connect`: the HTTP
      fallback's own connect (when the page is served over HTTPS), or else
      the opening of a fresh broker connection, should the pool need one,
      and the subscription to the three status topics. */
  datatype Attempt = Attempt(proxy: Outcome, created: Result<ConnectionPool.Client, string>, subscribed: Outcome)

  /** The client with one more attempt counted. */
  function Counted(c: Client): Client {
    c.(metrics := c.metrics.(attempts := c.metrics.attempts + 1))
  }

  /** The catch block of an attempt: disconnected, the error recorded. */
  function Failed(c: Client, msg: string): (Client, Result<(), string>) {
    (c.(state := Disconnected, status := c.status.(lastError := Some(msg)),
        metrics := c.metrics.(failed := c.metrics.failed + 1)), Failure(msg))
  }

  /** The end of a successful attempt, over the proxy or directly. */
  function Established(c: Client, https: bool): (Client, Result<(), string>) {
    var t := if https then HttpProxy else Direct;
    var st := c.status.(connected := true, connType := t, quality := if https then Good else Excellent, lastError := None);
    var m := if https then c.monitor else HealthMonitor.Start(c.monitor);
    (c.(state := Connected, connType := t, status := st, monitor := m,
        metrics := c.metrics.(successful := c.metrics.successful + 1)), Success(()))
  }

  /** One attempt of `connect`'s retried operation. Over HTTPS the HTTP
      fallback connects; otherwise the broker client is taken from the pool
      (`getConnection` under the client's key) and held, and then the status
      topics are subscribed. */
  function ConnectAttempt(c: Client, a: Attempt, https: bool): (r: (Client, Result<(), string>))
    ensures r.0.metrics.attempts == c.metrics.attempts + 1 && r.0.clientId == c.clientId
    ensures c.state == Connected ==> r == (Counted(c), Success(()))
    ensures c.state == Connecting ==> r == (Counted(c), Failure(AlreadyConnecting))
    // over the proxy, the broker client and the pool are left alone
    ensures c.state in {Disconnected, Reconnecting} && https ==>
              && r.0.current == c.current && r.0.pool == c.pool && r.0.ended == c.ended
              && (r.1.Success? <==> a.proxy.Ok?)
              && (a.proxy.Err? ==> r.1 == Failure(a.proxy.message))
    // directly, the pool decides which broker client is held
    ensures c.state in {Disconnected, Reconnecting} && !https ==>
              var look := ConnectionPool.GetConnection(c.pool, PoolKey(c), a.created);
              && r.0.pool == look.pool && r.0.ended == c.ended + look.ended
              && (look.result.Failure? ==> r.1 == Failure(look.result.error) && r.0.current == c.current)
              && (look.result.Success? ==>
                    && r.0.current == Some(look.result.value)
                    && ConnectionPool.Find(r.0.pool, PoolKey(c)) == r.0.current
                    && (r.1.Success? <==> a.subscribed.Ok?)
                    && (a.subscribed.Err? ==> r.1 == Failure(a.subscribed.message)))
    // either way a success connects and a failure disconnects with the error
    ensures c.state in {Disconnected, Reconnecting} && r.1.Success? ==>
              && r.0.state == Connected && r.0.status.connected
              && r.0.connType == (if https then HttpProxy else Direct) && r.0.status.connType == r.0.connType
              && r.0.status.quality == (if https then Good else Excellent) && r.0.status.lastError.None?
              && r.0.monitor == (if https then c.monitor else HealthMonitor.Start(c.monitor))
              && r.0.metrics.successful == c.metrics.successful + 1 && r.0.metrics.failed == c.metrics.failed
    ensures c.state in {Disconnected, Reconnecting} && r.1.Failure? ==>
              && r.0.state == Disconnected && r.0.status == c.status.(lastError := Some(r.1.error))
              && r.0.connType == c.connType && r.0.monitor == c.monitor
              && r.0.metrics.failed == c.metrics.failed + 1 && r.0.metrics.successful == c.metrics.successful
  {
    var c := Counted(c);
    if c.state == Connected then (c, Success(()))
    else if c.state == Connecting then (c, Failure(AlreadyConnecting))
    else if https then
      match a.proxy
      case Ok => Established(c, true)
      case Err(msg) => Failed(c, msg)
    else
      var look := ConnectionPool.GetConnection(c.pool, PoolKey(c), a.created);
      var c := c.(pool := look.pool, ended := c.ended + look.ended);
      match look.result
      case Failure(msg) => Failed(c, msg)
      case Success(broker) =>
        var c := c.(current := Some(broker));
        match a.subscribed
        case Ok => Established(c, false)
        case Err(msg) => Failed(c, msg)
  }

  /** `connect()`: the attempt above under the retry manager, the outside
      world acting as `world(n)` during the `n`-th attempt. */
  function Connect(c: Client, world: nat -> Attempt, https: bool): (r: RetryManager.Run<Client, ()>)
    ensures 1 <= r.attempts <= RetryManager.MaxRetries
    ensures r.result.Success? ==> r.state.state == Connected
    ensures r.state.metrics.attempts == c.metrics.attempts + r.attempts
  {
    var op := (s: Client, n: nat) => ConnectAttempt(s, world(n), https);
    ConnectProgress(op, c, 1, world, https);
    RetryManager.Retry(op, c)
  }

  /** Each attempt adds one to the attempt counter, and a run that resolves
      ends connected. */
  lemma {:induction false} ConnectProgress(op: (Client, nat) -> (Client, Result<(), string>), c: Client, attempt: nat,
                                           world: nat -> Attempt, https: bool)
    requires 1 <= attempt <= RetryManager.MaxRetries
    requires forall s: Client, n: nat :: op(s, n) == ConnectAttempt(s, world(n), https)
    ensures var r := RetryManager.RetryFrom(op, c, attempt);
            && r.state.metrics.attempts == c.metrics.attempts + r.attempts - attempt + 1
            && (r.result.Success? ==> r.state.state == Connected)
    decreases RetryManager.MaxRetries - attempt
  {
    var (next, outcome) := op(c, attempt);
    if !(outcome.Success? || attempt == RetryManager.MaxRetries) {
      ConnectProgress(op, next, attempt + 1, world, https);
    }
  }

  /** A client found connecting, and still connecting at every later attempt
      (nothing else runs between the attempts), refuses all five: four
      waits, the counter grows by five, and nothing else changes. */
  lemma {:induction false} ConnectWhileConnecting(c: Client, world: nat -> Attempt, https: bool)
    requires c.state == Connecting
    ensures var r := Connect(c, world, https);
            && r.result == Failure(AlreadyConnecting)
            && r.attempts == RetryManager.MaxRetries
            && r.sleeps == [1000, 1500, 2250, 3375]
            && r.state == c.(metrics := c.metrics.(attempts := c.metrics.attempts + 5))
  {
    var op := (s: Client, n: nat) => ConnectAttempt(s, world(n), https);
    assert forall t: Client, n: nat :: op(t, n) == ConnectAttempt(t, world(n), https);
    RefusedFrom(op, c, 1, world, https);
    var r := Connect(c, world, https);
    RetryManager.DelaySchedule();
    assert r.sleeps[0] == 1000 && r.sleeps[1] == 1500 && r.sleeps[2] == 2250 && r.sleeps[3] == 3375;
  }

  /** From any attempt on, a client that is connecting refuses every
      remaining attempt, each one adding to the counter. */
  lemma {:induction false} RefusedFrom(op: (Client, nat) -> (Client, Result<(), string>), c: Client, attempt: nat,
                                       world: nat -> Attempt, https: bool)
    requires c.state == Connecting && 1 <= attempt <= RetryManager.MaxRetries
    requires forall s: Client, n: nat :: op(s, n) == ConnectAttempt(s, world(n), https)
    ensures var r := RetryManager.RetryFrom(op, c, attempt);
            && r.result == Failure(AlreadyConnecting)
            && r.attempts == RetryManager.MaxRetries
            && r.state == c.(metrics := c.metrics.(attempts := c.metrics.attempts + RetryManager.MaxRetries + 1 - attempt))
    decreases RetryManager.MaxRetries - attempt
  {
    var c1 := Counted(c);
    var refused := ConnectAttempt(c, world(attempt), https);
    assert refused == (c1, Failure(AlreadyConnecting));
    assert op(c, attempt) == refused;
    if attempt == RetryManager.MaxRetries {
      RetryManager.RetryStops(op, c, attempt);
    } else {
      RetryManager.RetryContinues(op, c, attempt);
      RefusedFrom(op, c1, attempt + 1, world, https);
    }
  }

  /** When already connected, `connect` resolves at once and only the attempt
      counter moves. */
  lemma ConnectWhileConnected(c: Client, world: nat -> Attempt, https: bool)
    requires c.state == Connected
    ensures var r := Connect(c, world, https);
            && r.result.Success? && r.attempts == 1 && r.sleeps == []
            && r.state == c.(metrics := c.metrics.(attempts := c.metrics.attempts + 1))
  {
    var op := (s: Client, n: nat) => ConnectAttempt(s, world(n), https);
    var first := ConnectAttempt(c, world(1), https);
    assert first == (Counted(c), Success(()));
    assert op(c, 1) == first;
    RetryManager.RetryStops(op, c, 1);
  }

  // ------------------------------------------------------------- routing

  /** `handleMessage` after the receive counter is bumped: the gate and
      garage topics update the raw and parsed status, the log topic yields a
      log entry with the trimmed message as its id, and any other topic
      changes nothing else. Status listeners are notified in every case. */
  function HandleMessage(c: Client, topic: string, message: string): (r: (Client, Option<string>))
    ensures r.0.metrics == c.metrics.(received := c.metrics.received + 1)
    ensures topic == GateStatusTopic ==>
              r.0.status == c.status.(rawGate := Some(message), gate := ParseGate(message)) && r.1.None?
    ensures topic == GarageStatusTopic ==>
              r.0.status == c.status.(rawGarage := Some(message), garage := ParseGarage(message)) && r.1.None?
    ensures topic == GateLogTopic ==> r.0.status == c.status && r.1 == Some(Trim(message))
    ensures topic !in {GateStatusTopic, GarageStatusTopic, GateLogTopic} ==> r.0.status == c.status && r.1.None?
    ensures r.0.state == c.state && r.0.connType == c.connType
  {
    var c := c.(metrics := c.metrics.(received := c.metrics.received + 1));
    if topic == GateStatusTopic then (c.(status := c.status.(rawGate := Some(message), gate := ParseGate(message))), None)
    else if topic == GarageStatusTopic then
      (c.(status := c.status.(rawGarage := Some(message), garage := ParseGarage(message))), None)
    else if topic == GateLogTopic then (c, Some(Trim(message)))
    else (c, None)
  }

  /** The three subscribed topics are distinct, so each message is routed
      to exactly one handler. */
  lemma TopicsDistinct()
    ensures GateStatusTopic != GarageStatusTopic && GateStatusTopic != GateLogTopic && GarageStatusTopic != GateLogTopic
  {
    assert |GateStatusTopic| != |GarageStatusTopic|;
    assert GateStatusTopic[0] != GateLogTopic[0] && GarageStatusTopic[0] != GateLogTopic[0];
  }

  // ---------------------------------------------------------- publishing

  /** The number of ASCII digits in `s` from offset `i` up to the first
      non-digit. */
  function DigitRun(s: string, i: nat): (n: nat)
    requires i <= |s|
    ensures i + n <= |s| && AllDigits(s[i..i + n])
    ensures i + n < |s| ==> !IsDigit(s[i + n])
    decreases |s| - i
  {
    if i < |s| && IsDigit(s[i]) then
      var n := 1 + DigitRun(s, i + 1);
      assert s[i..i + n] == [s[i]] + s[i + 1..i + n];
      n
    else 0
  }

  /** The position of the first `c` in `s` at offset `i` or later. */
  function IndexFrom(s: string, c: char, i: nat): (r: Option<nat>)
    requires i <= |s|
    ensures r.Some? ==> i <= r.value < |s| && s[r.value] == c && forall k | i <= k < r.value :: s[k] != c
    ensures r.None? ==> forall k | i <= k < |s| :: s[k] != c
    decreases |s| - i
  {
    if i == |s| then None
    else if s[i] == c then Some(i)
    else IndexFrom(s, c, i + 1)
  }

  /** The numeric id the pattern `^(\d+)\.` captures at the start of `local`:
      the leading digits, when there is at least one and a dot follows. */
  function NumericId(local: string): (r: Option<string>)
    ensures r.Some? ==> |r.value| > 0 && AllDigits(r.value) && |r.value| < |local|
                        && local[..|r.value| + 1] == r.value + "."
  {
    var n := DigitRun(local, 0);
    if n > 0 && n < |local| && local[n] == '.' then
      assert local[..n + 1] == local[..n] + ".";
      Some(local[..n])
    else None
  }

  /** The pattern matches whenever the local part starts with digits and a
      dot, and it captures exactly those digits. */
  lemma NumericIdComplete(local: string, e: string)
    requires |e| > 0 && AllDigits(e) && |e| < |local| && local[..|e| + 1] == e + "."
    ensures NumericId(local) == Some(e)
  {
    var n := DigitRun(local, 0);
    assert forall i | 0 <= i < |e| :: local[i] == e[i] by {
      forall i | 0 <= i < |e| ensures local[i] == e[i] {
        assert local[..|e| + 1][i] == (e + ".")[i];
      }
    }
    assert local[|e|] == local[..|e| + 1][|e|];
    assert local[..n] == e;
  }

  /** The identity `publishCommand` writes to its log line: for an email
      whose local part starts with a numeric id and a dot, `ID: <id>
      <email>`; the email itself otherwise. */
  function LogIdentity(email: string): (r: string)
    ensures IndexFrom(email, '@', 0).None? ==> r == email
    ensures IndexFrom(email, '@', 0).Some? ==>
              var local := email[..IndexFrom(email, '@', 0).value];
              && (NumericId(local).None? ==> r == email)
              && (NumericId(local).Some? ==> r == "ID: " + NumericId(local).value + " " + email)
  {
    match IndexFrom(email, '@', 0)
    case None => email
    case Some(at) =>
      match NumericId(email[..at])
      case Some(d) => "ID: " + d + " " + email
      case None => email
  }

  /** An email whose local part is `<digits>.<rest>` is logged with the
      digits as its id. */
  lemma {:induction false} LogIdentityOfNumberedEmail(d: string, rest: string, domain: string)
    requires |d| > 0 && AllDigits(d)
    requires forall k | 0 <= k < |rest| :: rest[k] != '@'
    ensures LogIdentity(d + "." + rest + "@" + domain) == "ID: " + d + " " + d + "." + rest + "@" + domain
  {
    var local := d + "." + rest;
    var email := local + "@" + domain;
    assert email == d + "." + rest + "@" + domain;
    var at := |local|;
    assert email[at] == '@';
    forall k | 0 <= k < at
      ensures email[k] != '@'
    {
      assert email[k] == local[k];
      if k < |d| {
        assert local[k] == d[k] && IsDigit(d[k]);
      } else if k > |d| {
        assert local[k] == rest[k - |d| - 1];
      }
    }
    assert email[..at] == local;
    assert local[..|d| + 1] == d + ".";
    NumericIdComplete(local, d);
  }

  /** An email whose local part has no `<digits>.` prefix is logged as is. */
  lemma LogIdentityWithoutId(email: string)
    requires IndexFrom(email, '@', 0).Some?
    requires forall e | |e| > 0 && AllDigits(e) && |e| < IndexFrom(email, '@', 0).value ::
               email[..|e| + 1] != e + "."
    ensures LogIdentity(email) == email
  {
    var local := email[..IndexFrom(email, '@', 0).value];
    if NumericId(local).Some? {
      assert false;
    }
  }

  function BoolText(b: bool): string {
    if b then "true" else "false"
  }

  /** `publishCommand`'s guard: the direct client refuses to publish without
      a broker client or while disconnected. */
  function NotConnectedMessage(c: Client): string {
    "MQTT not connected - client: " + BoolText(c.current.Some?) + ", connected: " + BoolText(c.status.connected)
  }

  /** A client that can publish: one connected through the proxy, or one
      holding a broker client while its status reads connected. */
  predicate Ready(c: Client) {
    c.connType == HttpProxy || (c.current.Some? && c.status.connected)
  }

  /** What a published command puts on the wire: the code on the control
      topic, together with the identity the log line names; or, through the
      proxy, the HTTP fallback's publish request. */
  datatype Delivery = Published(topic: string, payload: string, sender: string) | Forwarded(request: PublishRequest)

  function Delivered(c: Client, cmd: Command, email: string): Delivery {
    if c.connType == HttpProxy then Forwarded(ProxyPublish(cmd, email))
    else Published(ControlTopic, Code(cmd), LogIdentity(email))
  }

  /** One attempt of a `publish*Command` operation for `cmd` issued by
      `email`: the HTTP fallback's publish when connected through the proxy,
      the guarded direct publish otherwise. `sent` is the transport's outcome
      and `latency` the time the attempt took. A success records the latency
      and updates the counters; a failure changes nothing. */
  function PublishAttempt(c: Client, cmd: Command, email: string, sent: Outcome, latency: nat): (r: (Client, Result<Delivery, string>))
    ensures !Ready(c) ==> r == (c, Failure(NotConnectedMessage(c)))
    ensures Ready(c) && sent.Err? ==> r == (c, Failure(sent.message))
    ensures r.1.Success? <==> Ready(c) && sent.Ok?
    ensures r.1.Success? ==>
              && r.1.value == (if c.connType == HttpProxy then Forwarded(ProxyPublish(cmd, email))
                               else Published(ControlTopic, Code(cmd), LogIdentity(email)))
              && r.0.metrics.sent == c.metrics.sent + 1
              && r.0.metrics.totalLatency == c.metrics.totalLatency + latency
              && r.0.metrics.avgLatency * r.0.metrics.sent as real == r.0.metrics.totalLatency as real
              && r.0.status.latency == Some(latency)
              && r.0.monitor == HealthMonitor.RecordLatency(c.monitor, latency)
              && r.0.state == c.state && r.0.connType == c.connType && r.0.current == c.current
  {
    if !Ready(c) then (c, Failure(NotConnectedMessage(c)))
    else
      match sent
      case Err(msg) => (c, Failure(msg))
      case Ok => (Recorded(c, latency), Success(Delivered(c, cmd, email)))
  }

  /** The bookkeeping after a command went out in `latency` ms. */
  function Recorded(c: Client, latency: nat): (r: Client)
    ensures r.metrics.sent == c.metrics.sent + 1
    ensures r.metrics.totalLatency == c.metrics.totalLatency + latency
    ensures r.metrics.avgLatency * r.metrics.sent as real == r.metrics.totalLatency as real
    ensures r == c.(metrics := r.metrics, status := c.status.(latency := Some(latency)),
                    monitor := HealthMonitor.RecordLatency(c.monitor, latency))
  {
    var n := c.metrics.sent + 1;
    var total := c.metrics.totalLatency + latency;
    c.(metrics := c.metrics.(sent := n, totalLatency := total, avgLatency := Mean(total, n)),
       status := c.status.(latency := Some(latency)), monitor := HealthMonitor.RecordLatency(c.monitor, latency))
  }

  /** `updateAverageLatency`'s mean: the total over the count, so the mean
      times the count gives the total back. */
  function Mean(total: int, n: nat): (r: real)
    requires n > 0
    ensures r * n as real == total as real
  {
    total as real / n as real
  }

  /** `publishGateCommand` and its siblings for `cmd`, issued by `email`:
      the attempt above under the retry manager, the `n`-th attempt's
      transport resolving as `sent(n)` after `latency(n)` ms. Since a failed
      attempt changes nothing, the command goes out exactly when the client
      can publish and one of the five attempts gets through; it goes out
      once, at the first such attempt. */
  function Publish(c: Client, cmd: Command, email: string, sent: nat -> Outcome, latency: nat -> nat): (r: RetryManager.Run<Client, Delivery>)
    ensures 1 <= r.attempts <= RetryManager.MaxRetries && r.sleeps == RetryManager.Schedule(r.attempts - 1)
    ensures r.result.Success? <==> Ready(c) && exists n | 1 <= n <= RetryManager.MaxRetries :: sent(n).Ok?
    ensures r.result.Success? ==>
              && sent(r.attempts).Ok? && (forall i | 1 <= i < r.attempts :: sent(i).Err?)
              && r.result.value == (if c.connType == HttpProxy then Forwarded(ProxyPublish(cmd, email))
                                    else Published(ControlTopic, Code(cmd), LogIdentity(email)))
              && r.state.metrics.sent == c.metrics.sent + 1
              && r.state.metrics.totalLatency == c.metrics.totalLatency + latency(r.attempts)
              && r.state.status.latency == Some(latency(r.attempts))
    ensures r.result.Failure? ==>
              && r.state == c && r.attempts == RetryManager.MaxRetries
              && r.result == Failure(if Ready(c) then sent(RetryManager.MaxRetries).message else NotConnectedMessage(c))
  {
    var op := (s: Client, n: nat) => PublishAttempt(s, cmd, email, sent(n), latency(n));
    PublishRun(c, cmd, email, sent, latency, op);
    RetryManager.Retry(op, c)
  }

  /** The proof behind `Publish`'s contract: a failed attempt changes
      nothing, so the run stops at the first attempt whose transport gets
      through, as for a stateless operation. */
  lemma PublishRun(c: Client, cmd: Command, email: string, sent: nat -> Outcome, latency: nat -> nat,
                   op: (Client, nat) -> (Client, Result<Delivery, string>))
    requires forall s: Client, n: nat :: op(s, n) == PublishAttempt(s, cmd, email, sent(n), latency(n))
    ensures var r := RetryManager.Retry(op, c);
            && (r.result.Success? <==> Ready(c) && exists n | 1 <= n <= RetryManager.MaxRetries :: sent(n).Ok?)
            && (r.result.Success? ==>
                  && sent(r.attempts).Ok? && (forall i | 1 <= i < r.attempts :: sent(i).Err?)
                  && r.result.value == (if c.connType == HttpProxy then Forwarded(ProxyPublish(cmd, email))
                                        else Published(ControlTopic, Code(cmd), LogIdentity(email)))
                  && r.state.metrics.sent == c.metrics.sent + 1
                  && r.state.metrics.totalLatency == c.metrics.totalLatency + latency(r.attempts)
                  && r.state.status.latency == Some(latency(r.attempts)))
            && (r.result.Failure? ==>
                  && r.state == c
                  && r.result == Failure(if Ready(c) then sent(RetryManager.MaxRetries).message else NotConnectedMessage(c)))
  {
    var outcome := (n: nat) => PublishAttempt(c, cmd, email, sent(n), latency(n)).1;
    var r := RetryManager.Retry(op, c);
    PublishStopsAtFirst(c, cmd, email, sent, latency, op, outcome);
    PublishFirst(c, cmd, email, sent, latency, outcome, r.attempts);
    PublishAt(c, cmd, email, sent, latency, r.attempts, r.state, r.result);
  }

  /** The run stops at the first attempt whose outcome is a success, with
      that attempt's state and outcome. */
  lemma PublishStopsAtFirst(c: Client, cmd: Command, email: string, sent: nat -> Outcome, latency: nat -> nat,
                            op: (Client, nat) -> (Client, Result<Delivery, string>), outcome: nat -> Result<Delivery, string>)
    requires forall s: Client, n: nat :: op(s, n) == PublishAttempt(s, cmd, email, sent(n), latency(n))
    requires forall n: nat :: outcome(n) == PublishAttempt(c, cmd, email, sent(n), latency(n)).1
    ensures var r := RetryManager.Retry(op, c);
            && r.attempts == RetryManager.FirstSuccess(outcome, 1)
            && (r.state, r.result) == PublishAttempt(c, cmd, email, sent(r.attempts), latency(r.attempts))
  {
    RetryManager.UnchangedOnFailureStops(op, c, 1, outcome);
  }

  /** The first attempt that gets through is the first whose transport
      succeeds, and there is one exactly when the client can publish and some
      transport of the five succeeds. */
  lemma PublishFirst(c: Client, cmd: Command, email: string, sent: nat -> Outcome, latency: nat -> nat,
                     outcome: nat -> Result<Delivery, string>, n: nat)
    requires forall m: nat :: outcome(m) == PublishAttempt(c, cmd, email, sent(m), latency(m)).1
    requires n == RetryManager.FirstSuccess(outcome, 1)
    ensures 1 <= n <= RetryManager.MaxRetries
    ensures outcome(n).Success? <==> Ready(c) && exists m | 1 <= m <= RetryManager.MaxRetries :: sent(m).Ok?
    ensures outcome(n).Success? ==> forall i | 1 <= i < n :: sent(i).Err?
  {
    RetryManager.FirstSuccessIsFirst(outcome, 1);
    if Ready(c) && exists m | 1 <= m <= RetryManager.MaxRetries :: sent(m).Ok? {
      var m :| 1 <= m <= RetryManager.MaxRetries && sent(m).Ok?;
      assert outcome(m).Success?;
    }
    if outcome(n).Success? {
      forall i | 1 <= i < n
        ensures sent(i).Err?
      {
        assert outcome(i).Failure?;
      }
    }
  }

  /** What the `n`-th attempt leaves, read off `PublishAttempt`'s contract. */
  lemma PublishAt(c: Client, cmd: Command, email: string, sent: nat -> Outcome, latency: nat -> nat,
                  n: nat, st: Client, res: Result<Delivery, string>)
    requires (st, res) == PublishAttempt(c, cmd, email, sent(n), latency(n))
    requires res.Failure? ==> n == RetryManager.MaxRetries
    ensures res.Success? <==> Ready(c) && sent(n).Ok?
    ensures res.Success? ==>
              && res.value == (if c.connType == HttpProxy then Forwarded(ProxyPublish(cmd, email))
                               else Published(ControlTopic, Code(cmd), LogIdentity(email)))
              && st.metrics.sent == c.metrics.sent + 1
              && st.metrics.totalLatency == c.metrics.totalLatency + latency(n)
              && st.status.latency == Some(latency(n))
    ensures res.Failure? ==>
              st == c && res == Failure(if Ready(c) then sent(RetryManager.MaxRetries).message else NotConnectedMessage(c))
  {
  }

  /** A direct client that is not connected tries five times, waiting after
      each of the first four, publishes nothing, changes nothing and reports
      the guard's error. */
  lemma PublishWhileDisconnected(c: Client, cmd: Command, email: string, sent: nat -> Outcome, latency: nat -> nat)
    requires c.connType != HttpProxy && !(c.current.Some? && c.status.connected)
    ensures var r := Publish(c, cmd, email, sent, latency);
            && r.result == Failure(NotConnectedMessage(c)) && r.state == c
            && r.attempts == RetryManager.MaxRetries && r.sleeps == [1000, 1500, 2250, 3375]
  {
    var r := Publish(c, cmd, email, sent, latency);
    assert r.result.Failure?;
    RetryManager.FullSchedule();
  }

  /** The average latency is always the total latency over the number of
      messages sent (0 before the first). */
  predicate LatencyAverageHolds(m: Metrics) {
    if m.sent == 0 then m.avgLatency == 0.0 else m.avgLatency * m.sent as real == m.totalLatency as real
  }

  lemma PublishKeepsLatencyAverage(c: Client, cmd: Command, email: string, sent: Outcome, latency: nat)
    requires LatencyAverageHolds(c.metrics)
    ensures LatencyAverageHolds(PublishAttempt(c, cmd, email, sent, latency).0.metrics)
  {
  }

  // -------------------------------------------------------------- events

  /** The held broker client's `offline` event. The client library clears
      the connection's `connected` flag, which the pool sees too. */
  function Offline(c: Client): (r: Client)
    ensures r.state == Disconnected && !r.status.connected && r.status.quality == QualityDisconnected
    ensures !r.monitor.running && r.metrics == c.metrics && r.clientId == c.clientId && r.ended == c.ended
    ensures c.current.None? ==> r.current.None? && r.pool == c.pool
    ensures c.current.Some? ==>
              && r.current == Some(c.current.value.(connected := false))
              && r.pool == ConnectionPool.MarkDead(c.pool, c.current.value)
  {
    var pool := if c.current.Some? then ConnectionPool.MarkDead(c.pool, c.current.value) else c.pool;
    var current := if c.current.Some? then Some(c.current.value.(connected := false)) else None;
    c.(state := Disconnected, status := c.status.(connected := false, quality := QualityDisconnected),
       monitor := HealthMonitor.Stop(c.monitor), current := current, pool := pool)
  }

  /** After the held broker client, filed under the client's key, went
      offline, the next direct attempt ends it first. It then holds the
      freshly opened connection, or keeps the dead one when opening fails. */
  lemma OfflineThenReconnect(c: Client, a: Attempt)
    requires c.current.Some? && ConnectionPool.Find(c.pool, PoolKey(c)) == c.current
    ensures var dead := c.current.value.(connected := false);
            var r := ConnectAttempt(Offline(c), a, false);
            && |r.0.ended| > |c.ended| && r.0.ended[|c.ended|] == dead
            && (a.created.Success? ==>
                  r.0.current == Some(a.created.value) && ConnectionPool.Find(r.0.pool, PoolKey(c)) == r.0.current)
            && (a.created.Failure? ==>
                  r == Failed(Counted(Offline(c)).(pool := r.0.pool, ended := r.0.ended), a.created.error)
                  && r.0.current == Some(dead))
  {
    ConnectionPool.MarkDeadFind(c.pool, c.current.value, PoolKey(c));
  }

  /** The broker client's `error` event. */
  function BrokerError(c: Client, message: string): (r: Client)
    ensures r.status.lastError == Some(message) && r.status.quality == Poor
    ensures r.state == c.state && r.status.connected == c.status.connected
  {
    c.(status := c.status.(lastError := Some(message), quality := Poor))
  }

  /** The broker client's `reconnect` event. */
  function Reconnect(c: Client): (r: Client)
    ensures r.state == Reconnecting && r.status.quality == Poor
    ensures r.status.connected == c.status.connected
  {
    c.(state := Reconnecting, status := c.status.(quality := Poor))
  }

  /** The health-monitor listener: while connected, an unhealthy report
      degrades the quality to poor and a healthy one restores excellent. */
  function HealthChanged(c: Client, healthy: bool): (r: Client)
    ensures !c.status.connected ==> r == c
    ensures c.status.connected ==> r.status.quality == (if healthy then Excellent else Poor)
    ensures r.state == c.state && r.status.connected == c.status.connected
  {
    if !c.status.connected then c
    else c.(status := c.status.(quality := if healthy then Excellent else Poor))
  }

  /** One firing of the health check while the client reports `connected`
      and `reconnecting`: the listener runs only when the flag changed. */
  function HealthTick(c: Client, connected: bool, reconnecting: bool): (r: Client)
    ensures var check := HealthMonitor.PerformHealthCheck(c.monitor, connected, reconnecting);
            r == (if check.notified.Some? then HealthChanged(c, check.notified.value) else c).(monitor := check.monitor)
  {
    var check := HealthMonitor.PerformHealthCheck(c.monitor, connected, reconnecting);
    var c' := if check.notified.Some? then HealthChanged(c, check.notified.value) else c;
    c'.(monitor := check.monitor)
  }

  /** A status forwarded from the HTTP fallback replaces the status, with
      the connection type fixed to the proxy and the quality derived from
      the connection flag alone. */
  function ForwardHttpStatus(c: Client, s: Status): (r: Client)
    ensures r.status.connType == HttpProxy
    ensures r.status.quality == (if s.connected then Good else QualityDisconnected)
    ensures r.status.gate == s.gate && r.status.garage == s.garage && r.status.connected == s.connected
  {
    c.(status := s.(connType := HttpProxy, quality := if s.connected then Good else QualityDisconnected))
  }

  // ----------------------------------------------------------- disconnect

  /** `disconnect()`: stops the monitor, ends every pooled connection and
      then the held one, drops the held one, and reports a disconnected
      status without latency. The flag returned says whether the HTTP
      fallback was told to disconnect too, which happens exactly when the
      client was connected through it. */
  function Disconnect(c: Client): (r: (Client, bool))
    ensures var d := r.0;
            && d.state == Disconnected && d.connType == NoConnection && d.current.None?
            && !d.status.connected && d.status.quality == QualityDisconnected
            && d.status.connType == NoConnection && d.status.latency.None?
            && !d.monitor.running && d.pool == []
    ensures r.1 <==> c.connType == HttpProxy
    // the clients ended: those of the pool in insertion order, then the held one
    ensures |r.0.ended| == |c.ended| + |c.pool| + (if c.current.Some? then 1 else 0)
    ensures r.0.ended[..|c.ended|] == c.ended
    ensures forall i | 0 <= i < |c.pool| :: r.0.ended[|c.ended| + i] == c.pool[i].client
    ensures c.current.Some? ==> r.0.ended[|r.0.ended| - 1] == c.current.value
    ensures r.0.metrics == c.metrics && r.0.clientId == c.clientId
    ensures r.0.status.gate == c.status.gate && r.0.status.garage == c.status.garage
  {
    var (pool, closed) := ConnectionPool.CloseAll(c.pool);
    var held := if c.current.Some? then [c.current.value] else [];
    (c.(state := Disconnected, connType := NoConnection, current := None, pool := pool,
        ended := c.ended + closed + held, monitor := HealthMonitor.Stop(c.monitor),
        status := c.status.(connected := false, quality := QualityDisconnected, connType := NoConnection, latency := None)),
     c.connType == HttpProxy)
  }

  /** Disconnecting twice is the same as disconnecting once: the second call
      ends no client and does not reach the HTTP fallback. */
  lemma DisconnectIdempotent(c: Client)
    ensures var d := Disconnect(c).0;
            Disconnect(d) == (d, false)
  {
  }
}
