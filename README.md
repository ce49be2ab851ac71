# IoT gateway circuit breaker, in Dafny

This project models the core of the IoT monitoring platform's API gateway
(`app.py`): the forwarder that relays a call to one of the registered
backend services behind a per-service circuit breaker, the circuit-state
store it updates, the cleaning of the forwarded headers, and the health
aggregation that classifies every registered backend.

- `circuit.dfy` (module `Circuit`): one service's circuit record
  (`failures`, `open`, `lastFailure`) and the forwarder's effect on it as
  pure functions. `Admit` is the open-circuit check, `Settle` the outbound
  request with its exception handler, `Step` one whole call, `Run` a
  sequence of calls. The lemmas state the breaker's behaviour for one call
  and across calls.
- `gateway.dfy` (module `Gateway`): class `Gateway` holding the registry,
  the threshold and timeout, and the map of circuit records that
  `Forward` updates in place; `CheckHealth` fills the health snapshot entry
  by entry. `TelemetryScenario` drives one gateway through the classic
  open / reject / trial sequence.
- `headers.dfy` (module `Headers`): the header dictionary that the
  forwarder deletes `"host"` from.
- `health.dfy` (module `Health`): the probe classification.

The outbound HTTP request is not modelled: its outcome is a parameter of
type `Outcome` (`TransportError`, or `Response(status, body)` whose body is
`None` when it is not valid JSON). A response counts as success when its
status is 200 to 299, which is what the HTTP client's `raise_for_status`
accepts. Time is an integer clock value passed in by the caller. The
health probe of each service is the function parameter `probe`.

Behaviour that follows the code:

- The open-circuit check (app.py:59) runs before the registry lookup
  (app.py:70), and indexing the circuit store with an unregistered name
  raises, so `Forward` requires a registered service. The 404 answer is
  given only for a registered service whose URL is empty; such a service
  never reaches the outbound request, so its record stays at its initial
  value (part of `Gateway.Valid`).
- A reset needs the elapsed time to be strictly greater than the timeout;
  exactly the timeout still rejects.
- The reset sets the count to 0 before the trial call. A breaker is often
  described as reopening as soon as its trial call fails; here a failed
  trial leaves `failures = 1` and reopens the circuit only when the
  threshold is at most 1 (`Circuit.FailedTrial`).
- A response below 500 zeroes the count before success is checked, so a
  4xx, 3xx or 1xx response, or a 2xx whose body does not decode, leaves the
  count at exactly 1; with a threshold of 2 or more such responses alone
  never open the circuit (`Circuit.ClientErrorsNeverOpen`).

## Model

| member | source | states |
|---|---|---|
| `Circuit.Admit` | app.py:59-68 | a call is rejected exactly when the circuit is open and the reset is not due; an admitted record is closed, keeps its failure time, and has a zero count when it was reset |
| `Circuit.Step` | app.py:54-108 | one call keeps the invariant "open implies a failure time and a count at or above the threshold"; rejection happens exactly while open and not due and leaves the record alone; the outbound request is made exactly when the result is a body or an upstream error; a body is returned exactly for a 2xx response that decodes; the failure time becomes now exactly on an upstream error; only a rejected or failed call can leave the circuit open |
| `Circuit.RejectedWithinTimeout` | app.py:59-68 | while open, a call at most resetTimeout after the last failure gets a 503 rejection, makes no outbound request and changes nothing |
| `Circuit.TrialAfterTimeout` | app.py:59-65 | while open, a call strictly later than resetTimeout after the last failure closes the circuit, zeroes the count, keeps the failure time and proceeds like a call on that closed record |
| `Circuit.FailedTrial` | app.py:62-104 | a trial call that fails ends with count 1, the failure stamped now, and the circuit open only when the threshold is at most 1 |
| `Circuit.SuccessResetsCount` | app.py:91-96 | on a closed circuit a 2xx response with a decodable body returns that body, zeroes the count and leaves the open flag and failure time unchanged |
| `Circuit.ClientErrorCountsOne` | app.py:91-108 | a response below 500 that is not a decodable 2xx is a 503 upstream error with count exactly 1, failure time now, and the circuit open exactly when 1 reaches the threshold |
| `Circuit.ServerErrorCountsUp` | app.py:97-108 | a transport error or 5xx response adds one to the count, stamps now, and opens the circuit exactly when the new count reaches the threshold |
| `Circuit.EmptyUrlNotFound` | app.py:70-72 | a registered service with an empty URL on a closed circuit answers 404 with no outbound request and its record unchanged |
| `Circuit.RunKeepsInvariant` | app.py:44-108 | every sequence of calls from a record satisfying the breaker invariant ends in a record satisfying it |
| `Circuit.ClientErrorsNeverOpen` | app.py:92-104 | with threshold at least 2, a closed circuit that only sees responses below 500 stays closed and never rejects |
| `Circuit.OpenRejectsUntilTimeout` | app.py:59-68 | an open circuit rejects every call up to resetTimeout after its last failure and its record stays the same |
| `Circuit.ServerErrorsAccumulate` | app.py:97-104 | consecutive transport errors or 5xx responses on a closed circuit raise the count by one each, stamp the last call's time, answer 503 each, and open the circuit on the call that brings the count to the threshold |
| `Headers.WithoutHost` | app.py:77-78 | the cleaned headers have no `"host"` key and every other entry, including a differently cased `"Host"`, is kept unchanged |
| `Headers.HeaderDict.Delete` | app.py:78 | deleting a present key removes exactly that key and keeps every other entry |
| `Health.Classify` | app.py:136-142 | a probe is healthy exactly on status 200, unhealthy on any other status, unreachable exactly when it raised |
| `Gateway.Gateway.constructor` | app.py:38-44 | every registry key starts with the record (0, closed, no failure time) and the store invariant holds |
| `Gateway.Gateway.Forward` | app.py:54-108 | the result and this service's new record are those of `Circuit.Step`, every other service's record is unchanged, the store invariant is kept, and the caller's headers lose `"host"` exactly when the outbound request is made |
| `Gateway.Gateway.Attempt` | app.py:80-108 | for an admitted service the outcome updates only that service's record, as `Circuit.Settle` says, keeping the store invariant |
| `Gateway.Gateway.CheckHealth` | app.py:135-146 | the snapshot has exactly one entry per registry key, each the label of that service's probe classification |
| `Gateway.TelemetryScenario` | app.py:54-108 | with threshold 3 and timeout 30, three failures on "telemetry" open its circuit, a call 8 units later is rejected, and a call 31 units after the last failure returns the body and leaves the circuit closed with count 0 |

## Left out

- The outbound HTTP request, `raise_for_status` and JSON decoding (app.py:81-96, 138-139) are library I/O; their outcome is the `Outcome` or `Probe` parameter.
- `Gateway.Gateway.Forward`: takes one clock reading per call; the source reads the clock a second time after the outbound request (app.py:100), so the recorded failure time is at or after the reading used for the reset test. The model stamps the failure with the same `now`.
- Time is an integer number of clock units; the source compares floating-point seconds (`total_seconds()`), so fractional elapsed times are not modelled.
- The concurrency of request handling and of the health probes (`asyncio.gather`, app.py:145-146) and the 10 s and 2 s timeouts: each forwarding call is atomic, and the health probes run one after another in an arbitrary order. Lost updates to the circuit store between concurrent calls across the `await` are not modelled.
- URL joining (`urljoin`, app.py:74, 137) is library reference resolution; the path, method, query parameters and body are passed only to the outbound request, so `Forward` does not take them.
- Reading the registry URLs, the threshold and the timeout from environment variables (app.py:27-41): the registry and configuration are constructor parameters; `Gateway.DefaultRegistry`, `Circuit.DefaultFailureThreshold` and `Circuit.DefaultResetTimeout` hold the defaults.
- `Gateway.Gateway.Forward`: requires a registered service; an unregistered name makes the source raise a lookup error at app.py:59 (an internal server error), which the model does not represent. Every route handler passes a registered name.
- The route handlers, the API-key check, the correlation-ID middleware, the root endpoint and the health route's constant overall "healthy" status and timestamp (app.py:46-52, 110-131, 148-256) are framework plumbing; logging and server start-up (app.py:15-17, 105-107, 258-259) and the demo service in app/app.py have no logic to model.
