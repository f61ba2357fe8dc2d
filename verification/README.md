# Gate control client: a Dafny model

This project models the decision logic of a web application that drives a
gate and a garage door through an MQTT broker (directly over WebSocket, or
through an HTTP proxy when the page is served over HTTPS). Everything here is
an immutable datatype plus pure transition functions with the clock passed in
explicitly. The contracts and lemmas state what the application promises.

The model covers:

- **Status parsers.** The raw payloads of `IoT/Brana/Status` and
  `IoT/Brana/Status2` become a 7-valued gate state and a 5-valued garage
  state (`StatusParser`).
- **Messaging client resilience.** This is the connection pool
  (`ConnectionPool`), the retry manager with its exact back-off schedule
  (`RetryManager`), the health monitor with its latency window
  (`HealthMonitor`), the HTTP fallback's request cache (`RequestCache`) and
  its circuit breaker (`CircuitBreaker`).
- **The HTTP fallback's statistics and poller.** This covers the
  connection-quality thresholds, poll scheduling, coalescing of polls that
  overlap, and diffing of polled answers (`HttpFallback`).
- **The direct client's bookkeeping.** This covers the connect guards, the
  broker client taken from the connection pool, topic routing, command
  publishing with its codes, the log identity extracted from an e-mail,
  latency averaging, broker events and disconnect (`MqttClient`,
  `Commands`).
- **The gate timing automaton.** The auto-close countdown runs into an
  open-duration phase (`GateAutomaton`). The four screens that run it differ
  only in a `Rules` record:
  - which statuses stop it;
  - whether it ticks;
  - whether it counts seconds past the limit;
  - whether the duration phase blocks a restart.

  The substring tests each screen applies to the status are stated as facts
  about the seven parsed labels (`GateTests`, `GateSignals`). The open
  confirmation check, with the republish that follows every check that
  runs out, is in `GateWatch`. The gate
  hook's settings, role check and retry flag are in `HookLogic`. The
  stand-alone countdown display is in `CountdownDisplay`.
- **Pure helpers.** These cover:
  - the permission table and checks (`Permissions`);
  - the dashboard's card filtering and buttons (`DashboardControls`);
  - the countdown, duration, total and uptime formatters, each with a
    parser that reads its text back (`Formatters`);
  - hex and RGB colours (`Colors`);
  - text truncation, capitalisation, e-mail validation, relative time and
    the quality maps (`TextHelpers`);
  - the status colour, icon and predicates (`StatusDisplay`);
  - the connection bar (`ConnectionStatus`);
  - the settings form's minutes and seconds fields and its role labels
    (`AdminPanel`).

`Wrappers` (Option and Result) and `Text` (JavaScript's `trim`, substring
search, ASCII case mapping, decimal rendering and `padStart`) are shared by
all modules. `GateLabelFacts` and `StatusLabelFacts` hold the substring facts
about the fixed labels that the other proofs use.

JavaScript semantics are written out where they matter:

- `%` keeps the sign of the dividend (`Formatters.JsRem`).
- The shifts in `rgbToHex` wrap to 32 bits (`Colors.ToInt32`).
- `x || d` treats 0 and NaN as missing (`GateAutomaton.OrDefault`).
- A `parseInt` that gives NaN is `None`.
- An object literal used as a lookup table also answers inherited member
  names (`StatusParser.ParseGateAsWritten`).

## Model

| member | source | states |
|---|---|---|
| StatusParser.GateTable | src/services/optimizedMqttService.ts:486-499 | every one of the six labels and the six codes P1..P6 names its own state, and every other key falls back to the unknown state |
| StatusParser.ParseGate | src/services/optimizedMqttService.ts:483-502 | the parser trims the payload; it recognises exactly the six labels and the six codes, and any other payload gives the unknown state |
| StatusParser.ParseGateRoundTrip | src/services/optimizedMqttService.ts:486-501 | each known state survives being rendered as its label or as its code and parsed back; the unknown state's own label parses to the unknown state |
| StatusParser.GateLabelInjective | src/services/optimizedMqttService.ts:487-492 | no two gate states share a label |
| StatusParser.ParseGarage | src/services/optimizedMqttService.ts:504-511 | the garage is reported closed exactly for the payload P1 in either case; every other payload, movement messages included, gives the unknown state |
| StatusParser.ParseGateAsWritten | src/services/optimizedMqttService.ts:501 | the source's lookup answers an inherited member exactly when the trimmed payload names one that is not a gate key; otherwise it agrees with the intended parser |
| StatusParser.AsWrittenParserLeaksPrototypeMembers | src/services/optimizedMqttService.ts:501 | the payload "toString" yields the inherited member, not the unknown state |
| Text.Trim | src/services/optimizedMqttService.ts:484 | the trimmed text occurs in the input right after the leading white space, neither starts nor ends with white space, and everything cut off on either side of it is white space |
| Text.TrimIdempotent | src/services/optimizedHttpMqttService.ts:501 | trimming twice gives the same text as trimming once |
| Text.AsciiLower | src/components/GateControl.tsx:58 | the result has the input's length and lower-cases it character by character |
| Text.AsciiUpper | src/services/optimizedMqttService.ts:505 | the result has the input's length and upper-cases it character by character |
| Text.ParseNatToString | src/components/Dashboard.tsx:480-482 | reading the decimal rendering of a count back gives the count |
| Text.NatToStringInjective | src/components/Dashboard.tsx:480-482 | different counts are rendered differently |
| Text.PadStart2 | src/components/Dashboard.tsx:480 | a text of two or more characters is kept; a shorter one is left-padded with '0' to exactly two characters |
| Text.TwoDigits | src/components/Dashboard.tsx:480-481 | a count below 100 is shown as two digits that read back as the count |
| ConnectionPool.Key | src/services/optimizedMqttService.ts:75 | the key is the URL, a '-' and the client id, and both parts can be recovered from it |
| ConnectionPool.FindDistinct | src/services/optimizedMqttService.ts:77-78 | in a pool whose keys are distinct, a lookup finds a client exactly when that client is filed under the key |
| ConnectionPool.DeleteFind | src/services/optimizedMqttService.ts:82 | after a delete the key is gone and every other key finds what it found before |
| ConnectionPool.DeleteDistinct | src/services/optimizedMqttService.ts:82 | deleting a present key removes exactly one entry and keeps the keys distinct |
| ConnectionPool.GetConnection | src/services/optimizedMqttService.ts:74-99 | a connected client under the key is returned and the pool is untouched. Otherwise: a dead client is ended first; the call resolves or rejects as the opening did; a new client is filed as the newest entry; the pool stays within three distinct keys. Every other key keeps its client, except that when the pool left after dropping the dead entry is full, its oldest key is evicted |
| ConnectionPool.Replace | src/services/optimizedMqttService.ts:87-98 | a full pool ends and evicts its oldest entry before the new client is stored; a pool with room evicts nothing |
| ConnectionPool.FindAppend | src/services/optimizedMqttService.ts:97 | storing under a new key files the client there and moves no other key |
| ConnectionPool.MarkDead | src/services/optimizedMqttService.ts:77-82 | a connection that went offline is marked disconnected wherever it is filed; keys and order stay as they were |
| ConnectionPool.MarkDeadFind | src/services/optimizedMqttService.ts:77-82 | after the mark every key finds what it found before, with that connection now disconnected, so the next lookup of its key ends it and opens a new one |
| ConnectionPool.CloseAll | src/services/optimizedMqttService.ts:121-124 | every pooled client is ended, in insertion order, and the pool is left empty |
| ConnectionPool.PoolStaysBounded | src/services/optimizedMqttService.ts:71-99 | from any pool within the bound, every sequence of lookups keeps at most three connections with distinct keys |
| RetryManager.Delay | src/services/optimizedMqttService.ts:156-159 | the wait after a failed attempt is `min(1000 * 1.5^(attempt-1), 30000)`, stated exactly over the integers |
| RetryManager.DelaySchedule | src/services/optimizedMqttService.ts:132-135 | the four waits are 1000, 1500, 2250 and 3375 ms |
| RetryManager.RetryFrom | src/services/optimizedMqttService.ts:143-164 | a run from a given attempt takes at most five attempts, fails only after the fifth, and waits once after each failed attempt but the last |
| RetryManager.RetryStops | src/services/optimizedMqttService.ts:146-150 | an attempt that succeeds, or the fifth attempt, ends the run with no further wait |
| RetryManager.RetryContinues | src/services/optimizedMqttService.ts:151-162 | a failed attempt before the fifth is followed by its wait and by the next attempt, run from the state the failure left |
| RetryManager.Retry | src/services/optimizedMqttService.ts:137-167 | a run makes one to five attempts, fails only after five, and its waits are the schedule's first `attempts - 1` entries |
| RetryManager.ExecuteWithRetry | src/services/optimizedMqttService.ts:137-167 | the counting loop as the source writes it computes the same run as the recursive definition |
| RetryManager.StatelessRunStops | src/services/optimizedMqttService.ts:143-162 | on a stateless operation the loop stops at the first successful attempt, or at the fifth, and returns that attempt's outcome |
| RetryManager.FirstSuccessIsFirst | src/services/optimizedMqttService.ts:146-150 | every attempt before the stopping one failed, and the stopping attempt succeeded exactly when some attempt from there to the fifth would |
| RetryManager.RetryFindsFirstSuccess | src/services/optimizedMqttService.ts:143-166 | for a stateless operation the run returns the first success and every earlier attempt failed; it succeeds exactly when some remaining attempt would; otherwise it rethrows the fifth error |
| RetryManager.UnchangedOnFailureStops | src/services/optimizedMqttService.ts:143-162 | an operation whose failures leave the state alone stops at the first successful attempt, or the fifth, with that attempt's state and outcome |
| RetryManager.FullSchedule | src/services/optimizedMqttService.ts:132-135 | a run of five attempts waits 1000, 1500, 2250 and 3375 ms |
| RetryManager.AlwaysFailingOperation | src/services/optimizedMqttService.ts:137-167 | an operation that always fails is tried five times with waits of 1000, 1500, 2250 and 3375 ms, and the fifth error is thrown |
| HealthMonitor.Start | src/services/optimizedMqttService.ts:182-188 | the interval runs afterwards, while health and history are kept |
| HealthMonitor.Stop | src/services/optimizedMqttService.ts:190-195 | the interval is cleared, while health and history are kept |
| HealthMonitor.PerformHealthCheck | src/services/optimizedMqttService.ts:197-206 | a running monitor's health becomes connected-and-not-reconnecting; listeners hear the new flag exactly when it changed; a stopped monitor does nothing |
| HealthMonitor.RepeatedCheckIsSilent | src/services/optimizedMqttService.ts:202-205 | a second check that sees the same client notifies nobody |
| HealthMonitor.RecordLatency | src/services/optimizedMqttService.ts:208-213 | the newest latency is last; the window grows until it holds ten and then keeps the most recent ones, as a suffix of everything recorded |
| HealthMonitor.HistoryKeepsMostRecent | src/services/optimizedMqttService.ts:208-213 | after any sequence of recordings the window holds exactly the ten most recent latencies (all of them while fewer) |
| HealthMonitor.AverageLatency | src/services/optimizedMqttService.ts:215-218 | the average is 0 for an empty window and otherwise times the window's length gives the sum of the window |
| HealthMonitor.AverageWithinBounds | src/services/optimizedMqttService.ts:215-218 | the average lies between the smallest and the largest latency held |
| RequestCache.EffectiveTimeout | src/services/optimizedHttpMqttService.ts:32 | a missing or zero timeout means 5000 ms; any other timeout is used as given |
| RequestCache.Set | src/services/optimizedHttpMqttService.ts:31-37 | the key then holds the data and expires the effective timeout after now; the other keys are unchanged |
| RequestCache.Get | src/services/optimizedHttpMqttService.ts:39-49 | the data is returned exactly while the key is present and now has not passed its expiry; a miss deletes the key and leaves the rest |
| RequestCache.Clear | src/services/optimizedHttpMqttService.ts:51-53 | nothing is left |
| RequestCache.Cleanup | src/services/optimizedHttpMqttService.ts:55-62 | exactly the entries that have not expired are kept, unchanged |
| RequestCache.GetAfterSet | src/services/optimizedHttpMqttService.ts:31-49 | a stored value is returned until its expiry and not after |
| RequestCache.SetLeavesOtherKeys | src/services/optimizedHttpMqttService.ts:31-49 | storing under one key does not change what a lookup of another key returns |
| RequestCache.CleanupIsUnobservable | src/services/optimizedHttpMqttService.ts:55-62 | a cleanup never changes what a later lookup returns |
| RequestCache.ExpiredLookupMatchesCleanup | src/services/optimizedHttpMqttService.ts:43-46 | a lookup that finds nothing removes the key just as a cleanup would |
| CircuitBreaker.OnSuccess | src/services/optimizedHttpMqttService.ts:96-102 | the failure count drops to 0; a half-open breaker closes and any other state is kept |
| CircuitBreaker.OnFailure | src/services/optimizedHttpMqttService.ts:104-112 | the count grows by one, the time is recorded, and the breaker is open once the count reaches five |
| CircuitBreaker.Execute | src/services/optimizedHttpMqttService.ts:76-94 | an open breaker within 60 s of the last failure refuses without running the operation. Otherwise the operation's outcome is passed on: a success closes the breaker with count 0, and a failure counts and may open it. Validity is preserved |
| CircuitBreaker.FiveFailuresOpen | src/services/optimizedHttpMqttService.ts:104-112 | five failures from a fresh breaker open it, and every request within the recovery timeout is refused |
| CircuitBreaker.HalfOpenFailureReopens | src/services/optimizedHttpMqttService.ts:77-93 | a failed trial after the recovery timeout reopens the breaker at once, because the count kept from before still reaches the threshold |
| CircuitBreaker.HalfOpenSuccessCloses | src/services/optimizedHttpMqttService.ts:77-102 | a successful trial after the recovery timeout runs the operation and closes the breaker with count 0 |
| HttpFallback.RecordRequest | src/services/optimizedHttpMqttService.ts:282-304 | the total and the matching counter grow by one, and a success adds its response time to the running mean's weight |
| HttpFallback.CountersCount | src/services/optimizedHttpMqttService.ts:282-291 | after any sequence of requests the counters count them: all, the successful ones and the failed ones |
| HttpFallback.RunningMeanIsMean | src/services/optimizedHttpMqttService.ts:296-304 | the running mean stays the arithmetic mean of the successful requests' response times |
| HttpFallback.QualityOf | src/services/optimizedHttpMqttService.ts:306-320 | excellent iff the success rate is at least 0.95 with mean below 1000 ms; else good iff at least 0.85 with mean below 3000 ms; else poor iff at least 0.7; else disconnected |
| HttpFallback.RateThresholds | src/services/optimizedHttpMqttService.ts:307-315 | each rate threshold holds exactly when the same comparison on the whole counts holds; with no requests none does |
| HttpFallback.NoRequestsMeansDisconnected | src/services/optimizedHttpMqttService.ts:307-318 | before any request the quality is disconnected, whatever the mean |
| HttpFallback.CurrentPollInterval | src/services/optimizedHttpMqttService.ts:366-371 | 20000 ms while the page is hidden, 7000 ms otherwise |
| HttpFallback.Schedule | src/services/optimizedHttpMqttService.ts:340-364 | nothing happens while polling is off. Otherwise the one pending timer is replaced by one after the custom delay (never negative) or after the current interval. The flags are kept |
| HttpFallback.StartPolling | src/services/optimizedHttpMqttService.ts:322-327 | polling is on, the visibility listener is attached and the first poll is scheduled at the current interval |
| HttpFallback.StopPolling | src/services/optimizedHttpMqttService.ts:329-338 | the timer is cleared and polling, in-flight, pending and listening flags all drop |
| HttpFallback.VisibilityChanged | src/services/optimizedHttpMqttService.ts:166-175 | while polling, a hidden page is polled again in 20 s and a visible one at once; otherwise nothing changes |
| HttpFallback.TimerFires | src/services/optimizedHttpMqttService.ts:373-384 | a request is issued exactly when the timer fires with polling on and no poll in flight; a poll in flight marks one as pending instead |
| HttpFallback.PollEndAsWritten | src/services/optimizedHttpMqttService.ts:449-454 | as written, the end of a poll clears the in-flight flag and schedules only a pending poll (in 100 ms); otherwise the timer stays as it was |
| HttpFallback.AsWrittenPollingStalls | src/services/optimizedHttpMqttService.ts:449-454 | after the first poll of a freshly started poller completes, no timer is set and no poll is in flight, so no further request is ever made |
| HttpFallback.PollEnd | src/services/optimizedHttpMqttService.ts:449-454 | corrected: a pending poll follows in 100 ms, and otherwise the next regular poll is scheduled at the current interval |
| HttpFallback.PollingKeepsGoing | src/services/optimizedHttpMqttService.ts:340-364 | with the corrected end, every completed poll of a running poller leaves the next one scheduled |
| HttpFallback.InFlightPollsCoalesce | src/services/optimizedHttpMqttService.ts:378-381 | a timer that fires during a poll issues no request, and one immediate poll follows its completion |
| HttpFallback.ApplyPoll | src/services/optimizedHttpMqttService.ts:391-442 | the connection flag follows the answer. Gate and garage change only when the answer carries a payload for them. Listeners are notified exactly when the flag, gate or garage changed. A log entry (trimmed) goes out exactly for a new log message |
| HttpFallback.RepeatedPollIsSilent | src/services/optimizedHttpMqttService.ts:391-442 | polling the same answer twice notifies nobody and forwards no log the second time |
| HttpFallback.ApplyPollFailure | src/services/optimizedHttpMqttService.ts:443-448 | a failed poll marks the status disconnected and notifies only when it was connected before |
| Commands.Code | src/services/optimizedMqttService.ts:522-606 | each command is sent as a single character |
| Commands.CodeInjective | src/services/optimizedMqttService.ts:522-606 | the controller can tell every command apart by its code |
| Commands.ProxyPublish | src/services/optimizedHttpMqttService.ts:551-609 | the proxy request goes to the control topic with the command's code and action, and the user field is "ID:" followed by the e-mail |
| MqttClient.ConnectAttempt | src/services/optimizedMqttService.ts:307-397 | every attempt counts. An attempt while connected succeeds with nothing else changed, and one while connecting fails with "Connection already in progress". Over HTTPS the HTTP fallback's connect decides and the pool is untouched. Directly, the broker client comes from the pool under the client's key: the pool and the log of ended clients follow `getConnection`; if the pool rejects, the held client stays; otherwise the pooled client is held, even when the subscription then fails. A success is connected via proxy (good) or directly (excellent, monitor started); a failure is disconnected with the error recorded |
| MqttClient.Connect | src/services/optimizedMqttService.ts:306-350 | one to five attempts are made, each counted, and a connect that resolves leaves the client connected |
| MqttClient.ConnectProgress | src/services/optimizedMqttService.ts:307-348 | from any attempt on, the counter grows by the number of attempts made and a resolved run ends connected |
| MqttClient.ConnectWhileConnecting | src/services/optimizedMqttService.ts:316-319 | a client that is connecting, and stays connecting throughout because nothing else runs between the attempts, fails after five refused attempts and four waits; the counter grows by five and nothing else changes |
| MqttClient.RefusedFrom | src/services/optimizedMqttService.ts:307-319 | a client that is connecting refuses every remaining attempt, each counted |
| MqttClient.ConnectWhileConnected | src/services/optimizedMqttService.ts:311-314 | when already connected, connect resolves on the first attempt and only the attempt counter moves |
| MqttClient.HandleMessage | src/services/optimizedMqttService.ts:466-481 | the receive counter grows. The gate and garage topics set the raw and parsed status, and the log topic yields an entry with the trimmed message. Any other topic changes no status |
| MqttClient.TopicsDistinct | src/services/optimizedMqttService.ts:446-450 | the three subscribed topics differ, so each message reaches one handler |
| MqttClient.NumericId | src/services/optimizedMqttService.ts:618 | a captured id is a non-empty run of digits shorter than the local part |
| MqttClient.NumericIdComplete | src/services/optimizedMqttService.ts:618 | a local part that starts with digits and a dot yields exactly those digits |
| MqttClient.LogIdentity | src/services/optimizedMqttService.ts:613-622 | an address without '@' is logged as is; with '@', the local part's numeric id decides between "ID: <id> <email>" and the e-mail itself |
| MqttClient.LogIdentityOfNumberedEmail | src/services/optimizedMqttService.ts:615-621 | an address `<digits>.<rest>@<domain>` is logged as "ID: <digits> " followed by the address |
| MqttClient.LogIdentityWithoutId | src/services/optimizedMqttService.ts:614-622 | an address whose local part has no `<digits>.` prefix is logged as is |
| MqttClient.PublishAttempt | src/services/optimizedMqttService.ts:522-633 | a direct client without a held broker client or a connected status fails with the guard's message and changes nothing; otherwise the transport decides. A failure changes nothing. A success puts the command's code on the control topic, naming the log identity (or, through the proxy, sends the fallback's request), records the latency and keeps the average equal to total over count |
| MqttClient.Publish | src/services/optimizedMqttService.ts:522-606 | the command goes out exactly when the client can publish and one of the five attempts' transports succeeds, at the first such attempt, carrying the command's code; the waits follow the schedule. A success counts one message and records that attempt's latency; a failure after five attempts leaves the client unchanged and rethrows the guard's or the fifth transport error |
| MqttClient.PublishWhileDisconnected | src/services/optimizedMqttService.ts:608-611 | a direct client that is not connected tries five times with the four waits, sends nothing, changes nothing and reports the guard's error |
| MqttClient.PublishKeepsLatencyAverage | src/services/optimizedMqttService.ts:672-678 | the average latency stays total latency over messages sent (0 before any) |
| MqttClient.Offline | src/services/optimizedMqttService.ts:426-433 | the client is disconnected with quality disconnected and the monitor stopped; the metrics are kept; the held broker client is marked disconnected, in the pool too |
| MqttClient.OfflineThenReconnect | src/services/optimizedMqttService.ts:74-99 | after the held client went offline, the next direct attempt ends it first, then holds the newly opened connection, or keeps the dead one if opening fails |
| MqttClient.BrokerError | src/services/optimizedMqttService.ts:419-424 | the error is recorded and the quality drops to poor; the connection flags stay |
| MqttClient.Reconnect | src/services/optimizedMqttService.ts:435-440 | the client is reconnecting with quality poor |
| MqttClient.HealthChanged | src/services/optimizedMqttService.ts:293-304 | while connected an unhealthy report gives poor and a healthy one excellent; while not connected nothing changes |
| MqttClient.HealthTick | src/services/optimizedMqttService.ts:197-206 | the health listener runs only when the monitor's flag changed |
| MqttClient.ForwardHttpStatus | src/services/optimizedMqttService.ts:365-372 | a forwarded status is taken over with the type set to the proxy and quality good or disconnected by its connection flag |
| MqttClient.Disconnect | src/services/optimizedMqttService.ts:636-660 | afterwards the client is disconnected, quality disconnected, type none, no latency and no held broker client. The monitor is stopped and the pool emptied. The clients ended are the pooled ones in insertion order, then the held one. The HTTP fallback is told to disconnect exactly when the client was connected through it. Metrics and states are kept |
| MqttClient.DisconnectIdempotent | src/services/optimizedMqttService.ts:636-660 | disconnecting twice is the same as once: the second call ends no client and does not reach the HTTP fallback |
| Permissions.PermissionCases | src/types/user.ts:106-121 | nobody logged in has nothing. User management belongs exactly to approved admins. An unapproved account has nothing else. An approved admin has everything, and any other approved account has exactly its flags set to true |
| Permissions.ManageUsersIgnoresFlags | src/types/user.ts:109-111 | managing users never depends on the stored flags |
| Permissions.DefaultFlagsLookup | src/types/user.ts:69-103 | each role's default record holds every permission with the table's value |
| Permissions.DefaultsDecide | src/types/user.ts:112-120 | an approved user or viewer holding its role's defaults is granted exactly what the table grants |
| Permissions.AdminOverridesDefaults | src/types/user.ts:115-117 | an approved admin passes every check, even the two its own defaults set to false |
| Permissions.DefaultTableFacts | src/types/user.ts:69-103 | a viewer may not drive the gate or the garage, use stop mode or manage users; a user may not use stop mode or manage users; an admin is not asked for a location; every other admin default is true |
| Permissions.DefaultViewerCannotDrive | src/types/user.ts:127-137 | an approved viewer with the default flags may drive neither gate nor garage nor use stop mode |
| DashboardControls.FilterCards | src/components/Dashboard.tsx:533-538 | the kept cards are exactly the input's cards the user may see |
| DashboardControls.VisibleCardsAre | src/components/Dashboard.tsx:499-538 | the gate card always comes first, the garage card shows exactly when the user may drive the garage, and the stop card exactly when the user may use stop mode |
| DashboardControls.ButtonsFollowPermissions | src/components/Dashboard.tsx:161-219 | neither the garage button nor the stop button sends anything. Each confirms exactly when its permission is held and refuses exactly when a logged-in user lacks it |
| DashboardControls.HookCheckAgreesOnDefaults | src/hooks/useGateLogic.ts:319-322 | for approved accounts with their role's defaults, the hook's role check and the shared gate permission agree |
| DashboardControls.HookCheckIgnoresApprovalAndFlags | src/hooks/useGateLogic.ts:319-322 | away from the defaults they part: an unapproved user passes the hook's check only, and an approved viewer granted the gate passes the shared check only |
| GateAutomaton.LimitSources | src/hooks/useGateLogic.ts:46-62 | every screen but the dashboard has a non-zero limit. The tracker's is always 250; another screen's is a non-zero stored value. The dashboard's is 0 only when nothing non-zero is stored or held |
| GateAutomaton.OpenReading | src/hooks/useGateLogic.ts:122-129 | on the parsed labels the open test holds exactly for the open state |
| GateAutomaton.StopReading | src/components/GateControl.tsx:69-90 | the dashboard and the hook stop on closed and closing; the card and the tracker stop on closed only |
| GateAutomaton.ElapsedSeconds | src/components/Dashboard.tsx:237 | the whole seconds between two times, rounded down |
| GateAutomaton.StartsOnlyWhenOpen | src/components/Dashboard.tsx:291-296 | a countdown starts only on an open gate, from the limit, stamped with now and with no duration shown; an open gate with an idle timer always starts one |
| GateAutomaton.ClosedClears | src/components/Dashboard.tsx:312-318 | a closed gate clears the whole timer on a guarded screen, and on any screen while no duration is shown |
| GateAutomaton.ClosingClears | src/hooks/useGateLogic.ts:144-179 | a closing gate clears the dashboard's and the hook's timer but leaves the card's and the tracker's running |
| GateAutomaton.OpenKeepsCountdown | src/components/GateControl.tsx:74 | a running countdown is not restarted by the gate reading open again |
| GateAutomaton.StepPreservesValid | src/components/Dashboard.tsx:290-376 | every status, tick or reload keeps a screen's timer consistent |
| GateAutomaton.RunPreservesValid | src/components/Dashboard.tsx:290-376 | every run of events from a consistent timer ends in a consistent timer |
| GateAutomaton.ScreensConsistent | src/components/GateControl.tsx:56-113 | each screen's rules, and the corrected card's, keep the timer invariant, which holds at the start |
| GateAutomaton.TicksAdd | src/components/Dashboard.tsx:336-376 | ticking a plus b seconds is ticking a seconds, then b seconds |
| GateAutomaton.CountdownRunsOut | src/components/Dashboard.tsx:338-360 | a countdown of c seconds shows c - n after n < c seconds; after exactly c seconds it is in the duration phase with nothing past the limit yet |
| GateAutomaton.DurationCounts | src/components/Dashboard.tsx:368-376 | in the duration phase the dashboard counts one second past the limit per second |
| GateAutomaton.RestoreSplitsElapsed | src/components/Dashboard.tsx:236-257 | a reload keeps the opening time. Before the limit, the seconds left (at least one) and the seconds elapsed add up to the limit. Past it, the limit and the seconds after it add up to the elapsed time |
| GateAutomaton.RestoreNeedsSavedTime | src/components/Dashboard.tsx:230-236 | without a saved opening time a reload changes nothing |
| GateAutomaton.RestoreMatchesLiveRun | src/components/Dashboard.tsx:236-257 | a reload n seconds after the opening shows exactly what an uninterrupted dashboard shows after starting then and ticking n times |
| GateAutomaton.CardRestartsAfterExpiry | src/components/GateControl.tsx:74-81 | as written, when the card's or the tracker's countdown runs out with the gate still open, the next open status starts a fresh countdown |
| GateAutomaton.CardShowsDurationWhenClosed | src/components/GateControl.tsx:84-90 | as written, a countdown that ran out while the gate was closing keeps the duration shown after the gate reads closed |
| GateAutomaton.GuardedDurationPersists | src/components/Dashboard.tsx:291-318 | on a guarded screen the duration phase survives an open status and ends on a closed one |
| GateAutomaton.CorrectedCardKeepsDuration | src/components/GateControl.tsx:74-107 | corrected: after its countdown runs out, the card stays in the duration phase while the gate reads open |
| GateAutomaton.HookNeverCounts | src/hooks/useGateLogic.ts:152-191 | the hook never ticks: along any run its countdown stays at the limit or 0 and it never enters the duration phase |
| GateSignals.OpenTestOnLabels | src/hooks/useGateLogic.ts:122-129 | only the open label reads as open |
| GateSignals.ClosedTestOnLabels | src/hooks/useGateLogic.ts:130-132 | only the closed label reads as closed |
| GateSignals.DashboardClosingTestOnLabels | src/components/Dashboard.tsx:277-278 | the dashboard reads only the closing label as closing |
| GateSignals.HookClosingTestOnLabels | src/hooks/useGateLogic.ts:144-150 | the hook reads only the closing label as closing |
| GateSignals.CardStopTestOnLabels | src/components/GateControl.tsx:84 | only the closed label stops the card, since "Zavírá se..." does not contain "zavírání" |
| GateSignals.OpeningTestOnLabels | src/components/Dashboard.tsx:407-412 | only the opening label reads as opening |
| GateSignals.CommandSeesClosedOnLabels | src/components/Dashboard.tsx:126-127 | a gate command sees the gate closed exactly for the closed label |
| GateSignals.StatusToneOnLabels | src/components/GateControl.tsx:178-194 | the card colours open green, closed red, opening yellow and closing orange, and the other three states gray |
| GateWatch.Arm | src/components/Dashboard.tsx:384-386 | an armed check counts down from its seconds with a budget of twice as many half-second probes |
| GateWatch.ProbeReading | src/components/GateStatusTracker.tsx:113-118 | a probe sees the gate opening exactly in the opening state |
| GateWatch.DashboardWatchOutcome | src/components/Dashboard.tsx:384-436 | a check of c seconds ends with the gate seen opening if it opens within them. Otherwise it gives up exactly at the end of the c-th second and is still watching, with the seconds left, before that |
| GateWatch.TrackerWatchOutcome | src/components/GateStatusTracker.tsx:104-135 | a tracker check sees the gate opening if it opens within its remaining probes, and otherwise gives up at the last probe of its budget. The tracker never arms its check (it sets `openCheckEnabled` only to false, at lines 123 and 131), so this code does not run as shipped |
| GateWatch.TrackerGivesUp | src/components/GateStatusTracker.tsx:127-132 | 2c probes without the gate opening end a c-second check and raise the retry flag, for a check the tracker never arms |
| GateWatch.ClosingCancelsCheckFirst | src/components/Dashboard.tsx:280-288 | a closing gate first cancels a running check and leaves the timer; the next closing status clears the timer |
| GateWatch.DashboardStatusIsTimerStatus | src/components/Dashboard.tsx:280-331 | without a running check the dashboard's status effect is the timer's |
| GateWatch.DashboardCommandArmsOnClosed | src/components/Dashboard.tsx:125-150 | a logged-in user's command is always published, and arms a check exactly when it succeeds while the gate is closed |
| GateWatch.DashboardRepublishesOnTimeout | src/components/Dashboard.tsx:430-462 | ten seconds without the gate opening end the check; the dashboard then republishes (given an identity) and, once that has gone out, arms a fresh ten-second check; a gate seen opening republishes nothing |
| GateWatch.DashboardRepublishesEveryRound | src/components/Dashboard.tsx:430-462 | as written, each re-armed check that runs out republishes again: n unanswered rounds republish n times, with no bound |
| GateWatch.CorrectedDashboardRetriesOnce | src/components/Dashboard.tsx:437-455 | corrected: whatever the rounds, at most one command is republished, and exactly one when the first check runs out unanswered and the user is known |
| HookLogic.HookSettingsFallBack | src/hooks/useGateLogic.ts:57-62 | every loaded setting is non-zero: a stored non-zero value is used and anything else gives 250, 3 or 10 |
| HookLogic.HookCommandNeedsRole | src/hooks/useGateLogic.ts:231-252 | the hook publishes exactly for admins and users; anyone else gets the refusal message; a publish clears the retry flag; nobody logged in changes nothing |
| HookLogic.HookRetryReading | src/hooks/useGateLogic.ts:193-204 | the retry flag survives a status exactly when it was set and the gate is closed. The hook never sets the flag (it sets `gateCommandRetry` only to false, at lines 200, 208 and 246), so as shipped the flag is always false |
| Formatters.JsRem | src/components/Dashboard.tsx:476-478 | the remainder has the dividend's sign and lies below the divisor in size; for a non-negative dividend it is the usual remainder |
| Formatters.ClockFields | src/components/Dashboard.tsx:476-478 | hours, minutes below 60 and seconds put back together give the count |
| Formatters.ReadHoursForm | src/components/Dashboard.tsx:480 | the "H:MM:SS" text reads back as the seconds it names |
| Formatters.ReadMinutesForm | src/components/Dashboard.tsx:481 | the "M:SS" text reads back as the seconds it names |
| Formatters.ReadSecondsForm | src/components/Dashboard.tsx:482 | the "Ss" text reads back as its seconds |
| Formatters.ClockRoundTripHours | src/hooks/useGateLogic.ts:267-268 | a count of an hour or more is shown in the long form and reads back as itself |
| Formatters.ClockRoundTripMinutes | src/hooks/useGateLogic.ts:269-270 | a count of a minute up to an hour reads back as itself |
| Formatters.ClockRoundTripSeconds | src/hooks/useGateLogic.ts:271-272 | a count below a minute reads back as itself |
| Formatters.ClockRoundTrip | src/hooks/useGateLogic.ts:262-274 | every non-negative count the countdown formatter shows reads back as itself, so no two counts look alike |
| Formatters.FormatOpenDuration | src/hooks/useGateLogic.ts:276-277 | the duration text is empty exactly when there is no opening time |
| Formatters.OpenDurationReadsElapsed | src/hooks/useGateLogic.ts:276-291 | with an opening time in the past the duration text reads back as the whole seconds since it |
| Formatters.TotalOpenTimeReadsBack | src/components/Dashboard.tsx:485-495 | a non-negative total reads back as the limit plus the seconds after it |
| Formatters.TotalOpenTimeAfterReload | src/components/Dashboard.tsx:485-495 | after a reload into the duration phase the total shown reads back as the whole seconds since the gate opened |
| Formatters.UptimeRoundTripHours | src/components/ConnectionStatus.tsx:63-64 | from an hour on, the uptime reads back rounded down to the minute |
| Formatters.UptimeRoundTripMinutes | src/components/ConnectionStatus.tsx:65-66 | from a minute up to an hour the uptime reads back exactly |
| Formatters.UptimeRoundTripSeconds | src/components/ConnectionStatus.tsx:58-68 | below a minute, zero included, the uptime reads back exactly |
| Formatters.UptimeRoundTrip | src/components/ConnectionStatus.tsx:57-70 | every uptime reads back as itself, rounded down to the minute once it reaches an hour |
| Formatters.LatencyShown | src/components/ConnectionStatus.tsx:52-55 | "N/A" exactly for a missing or zero latency; a positive one is shown as its value followed by "ms" |
| Colors.HexDigit | src/utils/helpers.ts:275 | the digit written for a value is a lower-case hex digit whose value is that value |
| Colors.HexPair | src/utils/helpers.ts:268-270 | two hex digits read as a value below 256 |
| Colors.HexToRgb | src/utils/helpers.ts:265-272 | a colour is read exactly from an optional '#' and six hex digits in either case, and its components lie in 0..255 |
| Colors.ToInt32 | src/utils/helpers.ts:275 | the shift operands wrap into the signed 32-bit range and are unchanged inside it |
| Colors.RgbToHexOfBytes | src/utils/helpers.ts:274-276 | for components in 0..255 the writer gives '#' and six lower-case digits, two per component |
| Colors.RgbRoundTrip | src/utils/helpers.ts:265-276 | writing three bytes and reading the text back gives the bytes, and the text has seven characters |
| Colors.HexRoundTrip | src/utils/helpers.ts:265-276 | reading a colour and writing it back gives '#' and the digits read, lower-cased |
| TextHelpers.TruncateText | src/utils/helpers.ts:118-121 | a text that fits is kept. A longer one keeps a prefix and ends in "...", and is exactly the maximum long when that is at least 3 |
| TextHelpers.TruncateIdempotent | src/utils/helpers.ts:118-121 | truncating twice to the same length of at least three changes nothing more |
| TextHelpers.CapitalizeFirst | src/utils/helpers.ts:123-125 | only the first character is upper-cased and the rest is kept |
| TextHelpers.CapitalizeIdempotent | src/utils/helpers.ts:123-125 | capitalising twice is capitalising once |
| TextHelpers.FirstAt | src/utils/helpers.ts:139 | the position found holds the first '@', and none is found exactly when there is none |
| TextHelpers.EmailCheckSound | src/utils/helpers.ts:138-141 | every accepted address has a non-empty first part, one '@', no white space, and a dot with something on both sides after the '@' |
| TextHelpers.EmailCheckComplete | src/utils/helpers.ts:138-141 | every address of that shape is accepted |
| TextHelpers.EmailCheckMatchesPattern | src/utils/helpers.ts:138-141 | the check accepts exactly the addresses of that shape |
| TextHelpers.UnitNamedWord | src/utils/helpers.ts:40-50 | each unit's word, singular or plural, reads back as its unit and count |
| TextHelpers.ReadAgo | src/utils/helpers.ts:40-50 | every "před <n> <unit>" text reads back as its count and unit |
| TextHelpers.RelativeTimeBuckets | src/utils/helpers.ts:31-51 | under a minute the text is "právě teď"; otherwise it names the largest unit that fits and the whole units elapsed |
| TextHelpers.QualityLabelsDistinct | src/utils/helpers.ts:84-102 | each reported quality gets its own text and colour, neither the fallback, and any other key gets the fallback pair |
| StatusDisplay.OpenClosedOnLabels | src/utils/helpers.ts:75-81 | the open test holds exactly for the two open states and the closed test for the two closed states |
| StatusDisplay.ActiveOnLabels | src/utils/helpers.ts:71-73 | as written the motion test holds only for the garage's two motions |
| StatusDisplay.AsWrittenMissesGateMotion | src/utils/helpers.ts:71-73 | the gate's opening and closing states are moving, yet the test calls them inactive |
| StatusDisplay.ActiveCorrectedOnLabels | src/utils/helpers.ts:71-73 | with the label lower-cased first, the motion test holds exactly for the four moving states |
| StatusDisplay.StatusColorOnLabels | src/utils/helpers.ts:54-60 | closed is green, open blue, the garage's motions amber, stopped and stop mode red, and the gate's motions and the unknown state gray |
| StatusDisplay.StatusIconOnLabels | src/utils/helpers.ts:62-69 | the icon of each state follows the same cases as the colour |
| StatusDisplay.ColorFollowsPredicates | src/utils/helpers.ts:54-81 | on any text closed wins over everything, open over motion, and the motion colour and icon appear exactly when the motion test holds |
| ConnectionStatus.ConnectionColorsDistinct | src/components/ConnectionStatus.tsx:17-25 | each reported quality gets its own colour, none gray, and any other key is gray |
| ConnectionStatus.QualityWordMatchesHelpers | src/components/ConnectionStatus.tsx:101-104 | on the four qualities the bar's word is the utilities' text, and on any other key the bar says "Odpojeno" where the utilities say "Neznámá" |
| ConnectionStatus.ConnectionWordCases | src/components/ConnectionStatus.tsx:84 | "Připojuji..." exactly while connecting, "Připojeno" exactly when connected and not connecting, "Odpojeno" otherwise |
| ConnectionStatus.LatencyClassBands | src/components/ConnectionStatus.tsx:112-116 | below 100 ms green, below 500 ms yellow, else red, and a larger latency never gets a better class |
| ConnectionStatus.SuccessPercent | src/components/ConnectionStatus.tsx:127 | the percentage is the success ratio times 100 rounded half up, within half a point of the exact value |
| ConnectionStatus.SuccessRateShown | src/components/ConnectionStatus.tsx:126-129 | "N/A" exactly before the first attempt; afterwards 100 when all attempts succeeded and 0 when none did |
| CountdownDisplay.SyncMirrorsSender | src/components/GateCountdownDisplay.tsx:21-28 | after an event the display holds the sender's timer whatever it held before, and it renders exactly when the sender is in a phase |
| CountdownDisplay.TickMatchesCard | src/components/GateCountdownDisplay.tsx:44-59 | the display's tick is the gate card's tick and leaves the clock alone |
| CountdownDisplay.RenderGuard | src/components/GateCountdownDisplay.tsx:85-109 | nothing renders between phases, the two panels never show together, and a mirrored duration phase always shows its panel |
| CountdownDisplay.ExpiryTimer | src/components/Dashboard.tsx:339-356 | the timer broadcast when the dashboard's countdown runs out is the duration phase with the opening time kept |
| CountdownDisplay.AsWrittenExpirySyncShowsNaN | src/components/GateCountdownDisplay.tsx:21-82 | as written, the duration panel shows "NaNs" right after the dashboard's expiry event, and no longer once the clock refresh has run |
| CountdownDisplay.ClockEndsInDigitOrS | src/components/GateCountdownDisplay.tsx:61-69 | the second-to-last character of every clock text is a digit, so no clock text is "NaNs" |
| CountdownDisplay.CorrectedExpirySyncShowsElapsed | src/components/GateCountdownDisplay.tsx:71-82 | corrected: after the expiry event the duration panel reads back as the whole seconds from the opening to the event |
| CountdownDisplay.TrackerSyncUnaffected | src/components/GateStatusTracker.tsx:60-64 | the tracker's start event carries a time, so both handlers agree on it and the countdown starts from the limit |
| AdminPanel.FieldsSplitLimit | src/components/AdminPanel.tsx:605-616 | for a non-negative limit the fields show whole minutes and seconds below 60 that add back up to the limit |
| AdminPanel.EnterMinutesKeepsSeconds | src/components/AdminPanel.tsx:606 | typing a minute count keeps the seconds and shows the typed minutes back; a non-number leaves NaN |
| AdminPanel.EnterSecondsKeepsMinutes | src/components/AdminPanel.tsx:617 | typing fewer than 60 seconds keeps the minutes and shows them back; 60 or more carries whole minutes over; a non-number leaves NaN |
| AdminPanel.ReenterMinutes | src/components/AdminPanel.tsx:605-606 | re-typing the shown minutes gives the limit back exactly when it is non-negative or a whole number of minutes; any other negative limit loses a minute |
| AdminPanel.ReenterSeconds | src/components/AdminPanel.tsx:616-617 | re-typing the shown seconds gives the limit back on the same condition |
| AdminPanel.TotalLabelReadsBack | src/components/AdminPanel.tsx:623 | for a non-negative limit the "M:SS" total reads back as the limit |
| AdminPanel.SettingFieldsNeverZero | src/components/AdminPanel.tsx:644 | the retry and open-check fields keep any non-zero number and give 3 or 10 otherwise, so neither is ever 0 |
| AdminPanel.RoleLabelsDistinct | src/components/AdminPanel.tsx:239-246 | the three roles get three different labels, none the stored name, and any other role passes through |

## Left out

- **Timers and events.** Timers, `localStorage`, `CustomEvent` broadcast and React effect scheduling are left out; the clock is a parameter.
  - Each timer firing is an explicit event: a one-second tick, a 500 ms probe or a status seen.
  - The order in which simultaneous timers fire is not modelled.
  - The hook holds a countdown but never ticks it. `HookNeverCounts` states that.
- **Dashboard open-check timer order.** The probe due at each full second and the one-second tick fall due together. `GateWatch.DashboardSecond` runs the probe first and then the tick, which re-arms the probe with a fresh budget for the seconds left. The other order is not modelled: there, the tick's restart cancels that probe, and the last second ends the check without a republish.
- ConnectWhileConnecting: concurrent calls of `connect` are not modelled; the state can only stay connecting between attempts because nothing else runs.
- **Transport and storage internals.** These are not modelled:
  - `mqtt.connect`, `createConnection`'s 15 s timeout and `subscribeToTopics`;
  - `fetch`, `AbortSignal` and the proxy endpoints;
  - Firebase.

  Their outcomes are parameters (`Outcome`, `Result`).
- **Stubbed handlers.** The garage and stop handlers of the dashboard publish nothing in the source (their bodies are placeholders). `DashboardControls.ButtonsFollowPermissions` states exactly that.
- **Connection timing averages.** The direct client's average connection time (`updateAverageConnectionTime`) is not modelled; it needs the clock's readings around each attempt.
- **HTTP response-time average.** It is modelled with exact reals rather than doubles.
- HealthMonitor.AverageLatency: the window's mean is an exact real; the source divides doubles, which can round.
- MqttClient.Mean: the average latency is an exact real, for the same reason; the source's `totalLatency / messagesSent` is a double.
- **Floating point.** These are not modelled:
  - `formatFileSize` (logarithms);
  - the utilities' `formatLatency` (`toFixed`);
  - `getLatencyColor` in the utilities (the connection bar's own latency class is modelled instead).
- ConnectionStatus.SuccessPercent: rounds the exact ratio half up; the source rounds a double, which can differ from the exact ratio at halves that doubles do not represent.
- Text.AsciiLower: maps ASCII letters only. JavaScript's `toLowerCase` is full Unicode, but every upper-case letter in the labels compared here is ASCII.
- TextHelpers.CapitalizeFirst: maps ASCII letters only, for the same reason.
- Text.AsciiUpper: maps ASCII letters only, where `toUpperCase` is full Unicode. The garage parsers are unaffected: the only upper-cased test that decides their result compares with "P1", and no character but 'p' upper-cases to 'P' (the `POHYB` test leads to the same unknown state as no match).
- TextHelpers.TruncateText: counts Unicode scalar values, where JavaScript's `length` and `substring` count UTF-16 code units. For four emoji and a maximum of 5, the source sees length 8 and returns one emoji followed by "..."; the model sees length 4 and keeps the text.
- **Broker subscriptions and the library's connection flag.** `subscribeToTopics` is one outcome per attempt; its per-topic error text is not built. A pooled connection's `connected` flag is set when it is opened and cleared by the `offline` event; the library's own reconnect, which would set it again, is not modelled.
- **Permission records.** An `approved` field that is `undefined` is read as false, and a permission record is a map from permission to flag.
- **GateCountdownDisplay.** None of the component files in this model renders it, so whether any screen shows the "NaNs" text of the last finding depends on a file that is not part of this model.
- AdminPanel.FieldsSplitLimit: stated for limits of zero or more; `ReenterMinutes` states what happens to a negative limit.
- **Out of scope.** Randomness, client ids, the mock service, performance helpers, date formatting and the rendering-only components are not part of this model.

## Findings

| source | as written | input that shows it | evidently intended | confidence | as-written member | corrected member |
|---|---|---|---|---|---|---|
| src/services/optimizedHttpMqttService.ts:449-454 | the end of a poll reschedules only a poll that was requested while it ran, and nothing else re-arms the timer | start polling, let the first poll complete with no other request pending: no timer is set, so no further poll is ever made until the page's visibility changes | the next regular poll is scheduled at the current interval | high (not executed) | HttpFallback.AsWrittenPollingStalls | HttpFallback.PollingKeepsGoing |
| src/services/optimizedMqttService.ts:501 | `statusMap[cleanStatus] \|\| 'Neznámý stav'` also finds members the object literal inherits | the payload "toString" yields a function rather than a gate state | only the twelve keys are recognised, and anything else is the unknown state | high (not executed) | StatusParser.AsWrittenParserLeaksPrototypeMembers | StatusParser.ParseGateRoundTrip |
| src/components/GateControl.tsx:74-81 | the countdown restarts whenever the gate reads open and the countdown is off, with no guard for the duration phase | the countdown of an open gate runs out; the next status effect, still open, starts a new countdown and the duration phase vanishes | as on the dashboard, the duration phase lasts while the gate stays open | medium (not executed) | GateAutomaton.CardRestartsAfterExpiry | GateAutomaton.CorrectedCardKeepsDuration |
| src/components/GateControl.tsx:84-90 | the stop is guarded by the countdown being on, so the duration phase is never cleared | the gate opens, then reads "Zavírá se..." (which the card ignores); the countdown runs out; the gate reads closed and the duration stays on | a closed gate clears the duration phase too | medium (not executed) | GateAutomaton.CardShowsDurationWhenClosed | GateAutomaton.GuardedDurationPersists |
| src/utils/helpers.ts:71-73 | `isStatusActive` compares case-sensitively with lower-case words | "Otevírá se..." and "Zavírá se..." are reported inactive | the gate's motions count as active, as the garage's do | high (not executed) | StatusDisplay.AsWrittenMissesGateMotion | StatusDisplay.ActiveCorrectedOnLabels |
| src/components/GateCountdownDisplay.tsx:21-28 | the sync handler copies `currentTime` from the event, and the dashboard's events carry none | the dashboard's countdown expires: the display's duration panel shows "NaNs" until its clock refresh runs | a missing time is taken from the event's timestamp | medium (not executed) | CountdownDisplay.AsWrittenExpirySyncShowsNaN | CountdownDisplay.CorrectedExpirySyncShowsElapsed |
| src/components/Dashboard.tsx:437-455 | a check that runs out republishes the gate command and arms a new ten-second check, with no count of attempts, so that check does the same when it runs out | the gate never reads as opening, say it goes straight from "Brána zavřena" to "Brána otevřena": a gate command goes out about every twelve seconds, without end | one retry: the messages call it the second attempt ("druhý pokus") and the second check | medium (not executed) | GateWatch.DashboardRepublishesEveryRound | GateWatch.CorrectedDashboardRetriesOnce |
