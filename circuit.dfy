/**
 * The per-service circuit breaker of the gateway's forwarder, written as pure
 * state-transition functions over one service's circuit record.
 *
 * A call first passes the admission test (an open circuit rejects until the
 * reset timeout has strictly elapsed since the last failure, then closes and
 * zeroes the count), then the registry lookup, then the outbound request,
 * whose outcome updates the record. Time is an integer clock value supplied
 * by the caller.
 */
module Circuit {

  datatype Option<+T> = None | Some(value: T)

  /** Defaults of the CIRCUIT_BREAKER configuration. */
  const DefaultFailureThreshold: int := 5
  const DefaultResetTimeout: int := 30

  /** One entry of the circuit-state store: failure count, open flag, time of last failure. */
  datatype CircuitState = CircuitState(failures: nat, open: bool, lastFailure: Option<int>)

  /** The record every registered service starts with. */
  const Closed: CircuitState := CircuitState(0, false, None)

  /** A decoded JSON response body; the gateway passes it through untouched. */
  type Body = string

  /** What the outbound request produced. */
  datatype Outcome =
    | TransportError                             // the HTTP client raised: timeout, refused connection, ...
    | Response(status: int, body: Option<Body>)  // body is None when the body is not valid JSON

  /** What the forwarder hands back to the route handler. */
  datatype ForwardResult =
    | Ok(body: Body)   // the backend's decoded body
    | CircuitOpen      // 503 "currently unavailable", no outbound request
    | NotFound         // 404 "not found", no outbound request
    | UpstreamError    // 503 "error", after a failed outbound request

  /** The HTTP status the gateway answers with. */
  function HttpStatus(r: ForwardResult): int
  {
    match r
    case Ok(_) => 200
    case NotFound => 404
    case CircuitOpen => 503
    case UpstreamError => 503
  }

  /** One call's effect: the new record, the result, and whether the outbound request was made. */
  datatype Transition = Transition(state: CircuitState, result: ForwardResult, called: bool)

  /** An open circuit has a recorded failure time and a count at or above the threshold. */
  predicate Invariant(st: CircuitState, threshold: int)
  {
    st.open ==> st.lastFailure.Some? && st.failures >= threshold
  }

  /** The statuses the HTTP client's raise_for_status accepts. */
  predicate IsSuccess(status: int)
  {
    200 <= status < 300
  }

  /** More than resetTimeout has passed since the last recorded failure. */
  predicate ResetDue(st: CircuitState, now: int, resetTimeout: int)
  {
    st.lastFailure.Some? && now - st.lastFailure.value > resetTimeout
  }

  /**
   * The open-circuit check done before anything else: None rejects the call;
   * Some(st') lets it through with the record st'.
   */
  function Admit(st: CircuitState, now: int, resetTimeout: int): (r: Option<CircuitState>)
    ensures r.None? <==> st.open && !ResetDue(st, now, resetTimeout)
    ensures r.Some? ==> !r.value.open && r.value.lastFailure == st.lastFailure
    ensures r.Some? && !st.open ==> r.value == st
    ensures r.Some? && st.open ==> r.value.failures == 0
  {
    if !st.open then Some(st)
    else if ResetDue(st, now, resetTimeout) then Some(st.(open := false, failures := 0))
    else None
  }

  /** The exception handler: count one more failure, stamp it, open at the threshold. */
  function RecordFailure(st: CircuitState, now: int, threshold: int): CircuitState
  {
    var count := st.failures + 1;
    st.(failures := count, lastFailure := Some(now), open := if count >= threshold then true else st.open)
  }

  /**
   * After the outbound request: a status below 500 zeroes the count first; a
   * 2xx status with a decodable body is returned; anything else is a failure.
   */
  function Settle(st: CircuitState, outcome: Outcome, now: int, threshold: int): (CircuitState, ForwardResult)
  {
    match outcome
    case TransportError => (RecordFailure(st, now, threshold), UpstreamError)
    case Response(status, body) =>
      var counted := if status < 500 then st.(failures := 0) else st;
      if IsSuccess(status) && body.Some? then (counted, Ok(body.value))
      else (RecordFailure(counted, now, threshold), UpstreamError)
  }

  /** One forwarding call for a registered service whose configured URL is url. */
  function Step(st: CircuitState, url: string, now: int, outcome: Outcome, threshold: int, resetTimeout: int): (t: Transition)
    ensures Invariant(st, threshold) ==> Invariant(t.state, threshold)
    ensures t.result == CircuitOpen <==> st.open && !ResetDue(st, now, resetTimeout)
    ensures t.result == CircuitOpen ==> t.state == st
    ensures t.called <==> t.result.Ok? || t.result == UpstreamError
    ensures t.result.Ok? ==>
              t.called && outcome.Response? && IsSuccess(outcome.status) && outcome.body == Some(t.result.body)
    ensures t.called && outcome.Response? && IsSuccess(outcome.status) && outcome.body.Some? ==>
              t.result == Ok(outcome.body.value)
    ensures t.state.lastFailure == if t.result == UpstreamError then Some(now) else st.lastFailure
    ensures t.state.open ==> t.result == CircuitOpen || t.result == UpstreamError
  {
    match Admit(st, now, resetTimeout)
    case None => Transition(st, CircuitOpen, false)
    case Some(admitted) =>
      if url == "" then Transition(admitted, NotFound, false)
      else
        var (next, result) := Settle(admitted, outcome, now, threshold);
        Transition(next, result, true)
  }

  /** A call to the forwarder: the clock reading and the outbound request's outcome. */
  datatype Call = Call(now: int, outcome: Outcome)

  /** Successive calls for one service: the final record and each call's result. */
  function Run(st: CircuitState, url: string, calls: seq<Call>, threshold: int, resetTimeout: int): (CircuitState, seq<ForwardResult>)
    decreases |calls|
  {
    if calls == [] then (st, [])
    else
      var t := Step(st, url, calls[0].now, calls[0].outcome, threshold, resetTimeout);
      var (final, results) := Run(t.state, url, calls[1..], threshold, resetTimeout);
      (final, [t.result] + results)
  }

  // ---------------------------------------------------------------------------
  // One call

  /** While open, a call no later than resetTimeout after the last failure is rejected untouched. */
  lemma RejectedWithinTimeout(st: CircuitState, url: string, now: int, outcome: Outcome, threshold: int, resetTimeout: int)
    requires st.open && st.lastFailure.Some?
    requires now - st.lastFailure.value <= resetTimeout
    ensures Step(st, url, now, outcome, threshold, resetTimeout) == Transition(st, CircuitOpen, false)
    ensures HttpStatus(CircuitOpen) == 503
  {
  }

  /**
   * While open, a call strictly later than resetTimeout after the last failure
   * is a trial: the record is closed with a zero count, the failure time kept,
   * and the call goes on to the registry lookup and the outbound request.
   */
  lemma TrialAfterTimeout(st: CircuitState, url: string, now: int, outcome: Outcome, threshold: int, resetTimeout: int)
    requires st.open && ResetDue(st, now, resetTimeout)
    ensures Admit(st, now, resetTimeout) == Some(CircuitState(0, false, st.lastFailure))
    ensures var t := Step(st, url, now, outcome, threshold, resetTimeout);
            t == Step(CircuitState(0, false, st.lastFailure), url, now, outcome, threshold, resetTimeout)
  {
  }

  /**
   * A failed trial leaves the count at 1 and the failure stamped, and it opens
   * the circuit again only when the threshold is at most 1.
   */
  lemma FailedTrial(st: CircuitState, url: string, now: int, outcome: Outcome, threshold: int, resetTimeout: int)
    requires st.open && ResetDue(st, now, resetTimeout) && url != ""
    requires !(outcome.Response? && IsSuccess(outcome.status) && outcome.body.Some?)
    ensures var t := Step(st, url, now, outcome, threshold, resetTimeout);
            t.result == UpstreamError && t.called &&
            t.state == CircuitState(1, threshold <= 1, Some(now))
  {
  }

  /** A 2xx response with a decodable body returns that body and zeroes the count; nothing else changes. */
  lemma SuccessResetsCount(st: CircuitState, url: string, now: int, status: int, body: Body, threshold: int, resetTimeout: int)
    requires !st.open && url != "" && IsSuccess(status)
    ensures Step(st, url, now, Response(status, Some(body)), threshold, resetTimeout)
            == Transition(st.(failures := 0), Ok(body), true)
  {
  }

  /**
   * A response below 500 that is not a decodable 2xx is a failure whose count
   * ends at exactly 1, whatever the count was.
   */
  lemma ClientErrorCountsOne(st: CircuitState, url: string, now: int, status: int, body: Option<Body>, threshold: int, resetTimeout: int)
    requires !st.open && url != "" && status < 500
    requires !(IsSuccess(status) && body.Some?)
    ensures Step(st, url, now, Response(status, body), threshold, resetTimeout)
            == Transition(CircuitState(1, 1 >= threshold, Some(now)), UpstreamError, true)
    ensures HttpStatus(UpstreamError) == 503
  {
  }

  /** A 5xx response or a transport error adds one to the count and opens exactly at the threshold. */
  lemma ServerErrorCountsUp(st: CircuitState, url: string, now: int, outcome: Outcome, threshold: int, resetTimeout: int)
    requires !st.open && url != ""
    requires outcome.TransportError? || outcome.status >= 500
    ensures Step(st, url, now, outcome, threshold, resetTimeout)
            == Transition(CircuitState(st.failures + 1, st.failures + 1 >= threshold, Some(now)), UpstreamError, true)
  {
  }

  /** A registered service with an empty URL answers 404; a closed record is left as it was. */
  lemma EmptyUrlNotFound(st: CircuitState, now: int, outcome: Outcome, threshold: int, resetTimeout: int)
    requires !st.open
    ensures Step(st, "", now, outcome, threshold, resetTimeout) == Transition(st, NotFound, false)
    ensures HttpStatus(NotFound) == 404
  {
  }

  // ---------------------------------------------------------------------------
  // Successive calls

  /** Every sequence of calls keeps the breaker invariant. */
  lemma {:induction false} RunKeepsInvariant(st: CircuitState, url: string, calls: seq<Call>, threshold: int, resetTimeout: int)
    requires Invariant(st, threshold)
    ensures Invariant(Run(st, url, calls, threshold, resetTimeout).0, threshold)
    decreases |calls|
  {
    if calls != [] {
      var t := Step(st, url, calls[0].now, calls[0].outcome, threshold, resetTimeout);
      RunKeepsInvariant(t.state, url, calls[1..], threshold, resetTimeout);
    }
  }

  /** A response with a status below 500. */
  predicate IsClientSide(c: Call)
  {
    c.outcome.Response? && c.outcome.status < 500
  }

  /** A transport error or a 5xx response. */
  predicate IsServerSide(c: Call)
  {
    c.outcome.TransportError? || c.outcome.status >= 500
  }

  /**
   * With a threshold of 2 or more, responses below 500 alone never open a
   * closed circuit: each one zeroes the count before any failure is counted.
   */
  lemma {:induction false} ClientErrorsNeverOpen(st: CircuitState, url: string, calls: seq<Call>, threshold: int, resetTimeout: int)
    requires threshold >= 2 && !st.open
    requires forall i :: 0 <= i < |calls| ==> IsClientSide(calls[i])
    ensures !Run(st, url, calls, threshold, resetTimeout).0.open
    ensures forall i :: 0 <= i < |Run(st, url, calls, threshold, resetTimeout).1| ==>
              Run(st, url, calls, threshold, resetTimeout).1[i] != CircuitOpen
    decreases |calls|
  {
    if calls != [] {
      var t := Step(st, url, calls[0].now, calls[0].outcome, threshold, resetTimeout);
      assert !t.state.open;
      assert forall i :: 0 <= i < |calls[1..]| ==> IsClientSide(calls[1..][i]) by {
        forall i | 0 <= i < |calls[1..]| ensures IsClientSide(calls[1..][i]) {
          assert calls[1..][i] == calls[i + 1];
        }
      }
      ClientErrorsNeverOpen(t.state, url, calls[1..], threshold, resetTimeout);
    }
  }

  /**
   * While open, every call no later than resetTimeout after the last failure
   * is rejected and the record does not change.
   */
  lemma {:induction false} OpenRejectsUntilTimeout(st: CircuitState, url: string, calls: seq<Call>, threshold: int, resetTimeout: int)
    requires st.open && st.lastFailure.Some?
    requires forall i :: 0 <= i < |calls| ==> calls[i].now <= st.lastFailure.value + resetTimeout
    ensures Run(st, url, calls, threshold, resetTimeout).0 == st
    ensures Run(st, url, calls, threshold, resetTimeout).1 == seq(|calls|, _ => CircuitOpen)
    decreases |calls|
  {
    if calls != [] {
      RejectedWithinTimeout(st, url, calls[0].now, calls[0].outcome, threshold, resetTimeout);
      assert forall i :: 0 <= i < |calls[1..]| ==> calls[1..][i].now <= st.lastFailure.value + resetTimeout by {
        forall i | 0 <= i < |calls[1..]| ensures calls[1..][i].now <= st.lastFailure.value + resetTimeout {
          assert calls[1..][i] == calls[i + 1];
        }
      }
      OpenRejectsUntilTimeout(st, url, calls[1..], threshold, resetTimeout);
    }
  }

  /**
   * Consecutive transport errors or 5xx responses on a closed circuit each add
   * one to the count and stamp their own time; the circuit opens on the call
   * that brings the count to the threshold.
   */
  lemma {:induction false} ServerErrorsAccumulate(st: CircuitState, url: string, calls: seq<Call>, threshold: int, resetTimeout: int)
    requires !st.open && url != ""
    requires forall i :: 0 <= i < |calls| ==> IsServerSide(calls[i])
    requires st.failures + |calls| <= threshold
    ensures var (final, results) := Run(st, url, calls, threshold, resetTimeout);
            && final.failures == st.failures + |calls|
            && (final.open <==> |calls| > 0 && st.failures + |calls| == threshold)
            && final.lastFailure == (if calls == [] then st.lastFailure else Some(calls[|calls| - 1].now))
            && results == seq(|calls|, _ => UpstreamError)
    decreases |calls|
  {
    if calls != [] {
      var c := calls[0];
      ServerErrorCountsUp(st, url, c.now, c.outcome, threshold, resetTimeout);
      var t := Step(st, url, c.now, c.outcome, threshold, resetTimeout);
      assert forall i :: 0 <= i < |calls[1..]| ==> IsServerSide(calls[1..][i]) by {
        forall i | 0 <= i < |calls[1..]| ensures IsServerSide(calls[1..][i]) {
          assert calls[1..][i] == calls[i + 1];
        }
      }
      if |calls| > 1 {
        ServerErrorsAccumulate(t.state, url, calls[1..], threshold, resetTimeout);
      }
    }
  }
}
