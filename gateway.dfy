/**
 * The gateway's forwarding state: the service registry, the breaker
 * configuration and the circuit-state store, with the forwarder and the
 * health aggregation as methods.
 */
module Gateway {
  import opened Circuit
  import opened Headers
  import opened Health

  /** The registry's default URLs, used when no environment override is set. */
  const DefaultRegistry: map<string, string> := map[
    "device-registry" := "http://device-registry-service:8001",
    "telemetry" := "http://telemetry-service:8002",
    "rules-engine" := "http://rules-engine-service:8003",
    "notification" := "http://notification-service:8004",
    "dashboard" := "http://dashboard-service:8005",
    "ingestion" := "http://ingestion-service:8006",
    "ml" := "http://ml-service:8007"
  ]

  /**
   * Every registered service has a record, every record keeps the breaker
   * invariant, and a service with an empty URL, which never reaches the
   * outbound request, keeps its initial record.
   */
  ghost predicate StoreValid(circuits: map<string, CircuitState>, registry: map<string, string>, threshold: int)
  {
    && circuits.Keys == registry.Keys
    && (forall s :: s in circuits ==> Invariant(circuits[s], threshold))
    && (forall s :: s in circuits && registry[s] == "" ==> circuits[s] == Closed)
  }

  /** Replacing one service's record by one that keeps the invariant keeps the store valid. */
  lemma StoreUpdate(circuits: map<string, CircuitState>, registry: map<string, string>, threshold: int,
                    service: string, st: CircuitState)
    requires StoreValid(circuits, registry, threshold) && service in registry
    requires Invariant(st, threshold) && (registry[service] == "" ==> st == Closed)
    ensures StoreValid(circuits[service := st], registry, threshold)
  {
  }

  class Gateway {
    /** Logical service name to base URL; fixed once the process has started. */
    const registry: map<string, string>
    const failureThreshold: int
    const resetTimeout: int
    /** One circuit record per registered service. */
    var circuits: map<string, CircuitState>

    /** The store invariant, over this gateway's registry and records. */
    ghost predicate Valid()
      reads this
    {
      StoreValid(circuits, registry, failureThreshold)
    }

    constructor (registry: map<string, string>, failureThreshold: int, resetTimeout: int)
      ensures Valid()
      ensures this.registry == registry
      ensures this.failureThreshold == failureThreshold && this.resetTimeout == resetTimeout
      ensures circuits == map s | s in registry :: Closed
    {
      this.registry := registry;
      this.failureThreshold := failureThreshold;
      this.resetTimeout := resetTimeout;
      circuits := map s | s in registry :: Closed;
    }

    /**
     * Forwards one call to a registered service. The outbound request is not
     * made here: its outcome is the parameter `outcome`, consulted only when
     * the call gets that far. Only this service's record changes, as Step
     * says, and the caller's headers lose "host" exactly when the outbound
     * request is made.
     */
    method Forward(service: string, headers: HeaderDict, now: int, outcome: Outcome) returns (r: ForwardResult)
      requires Valid() && service in registry
      modifies this, headers
      ensures Valid()
      ensures r == Step(old(circuits)[service], registry[service], now, outcome, failureThreshold, resetTimeout).result
      ensures circuits == old(circuits)[service := Step(old(circuits)[service], registry[service], now, outcome, failureThreshold, resetTimeout).state]
      ensures headers.entries == if Step(old(circuits)[service], registry[service], now, outcome, failureThreshold, resetTimeout).called
                                 then WithoutHost(old(headers.entries)) else old(headers.entries)
    {
      ghost var t := Step(circuits[service], registry[service], now, outcome, failureThreshold, resetTimeout);
      ghost var entries := headers.entries;

      var st := circuits[service];
      if st.open {
        if st.lastFailure.Some? && now - st.lastFailure.value > resetTimeout {
          st := st.(open := false, failures := 0);
          circuits := circuits[service := st];
        } else {
          assert t == Transition(old(circuits)[service], CircuitOpen, false);
          return CircuitOpen;
        }
      }
      assert Admit(old(circuits)[service], now, resetTimeout) == Some(st);

      var url := registry[service];
      if url == "" {
        assert st == old(circuits)[service] && circuits == old(circuits);
        assert t == Transition(st, NotFound, false);
        return NotFound;
      }

      if "host" in headers.entries {
        headers.Delete("host");
      }
      assert headers.entries == WithoutHost(entries);

      r := Attempt(service, now, outcome);
    }

    /**
     * The outbound request and its exception handler, for a service whose
     * circuit has been admitted: the outcome updates this service's record.
     */
    method Attempt(service: string, now: int, outcome: Outcome) returns (r: ForwardResult)
      requires Valid() && service in registry && registry[service] != "" && !circuits[service].open
      modifies this
      ensures Valid()
      ensures circuits == old(circuits)[service := Settle(old(circuits)[service], outcome, now, failureThreshold).0]
      ensures r == Settle(old(circuits)[service], outcome, now, failureThreshold).1
    {
      var st := circuits[service];
      if outcome.Response? {
        if outcome.status < 500 {
          st := st.(failures := 0);
          circuits := circuits[service := st];
        }
        if IsSuccess(outcome.status) && outcome.body.Some? {
          StoreUpdate(old(circuits), registry, failureThreshold, service, st);
          return Ok(outcome.body.value);
        }
      }

      // the exception handler
      var count := st.failures + 1;
      st := st.(failures := count, lastFailure := Some(now));
      if count >= failureThreshold {
        st := st.(open := true);
      }
      circuits := circuits[service := st];
      StoreUpdate(old(circuits), registry, failureThreshold, service, st);
      r := UpstreamError;
    }

    /**
     * Probes every registered service once and records one status per
     * service. `probe` stands for the GET of the service's /health endpoint.
     * Services are visited in no particular order, as the concurrent probes
     * may finish in any order; circuit records are neither read nor changed.
     */
    method CheckHealth(probe: string -> Probe) returns (snapshot: map<string, string>)
      ensures snapshot.Keys == registry.Keys
      ensures forall s :: s in snapshot ==> snapshot[s] == Label(Classify(probe(s)))
    {
      snapshot := map[];
      var pending := registry.Keys;
      while pending != {}
        invariant pending <= registry.Keys
        invariant snapshot.Keys == registry.Keys - pending
        invariant forall s :: s in snapshot ==> snapshot[s] == Label(Classify(probe(s)))
        decreases pending
      {
        var service :| service in pending;
        snapshot := snapshot[service := Label(Classify(probe(service)))];
        pending := pending - {service};
      }
    }
  }

  /**
   * The breaker scenario with threshold 3 and timeout 30: three failed calls
   * to "telemetry" open its circuit, a fourth call within the timeout is
   * rejected without an outbound request, and a call 31 time units after the
   * last failure goes through and closes the circuit again.
   */
  method TelemetryScenario() returns (fourth: ForwardResult, trial: ForwardResult, after: CircuitState)
    ensures fourth == CircuitOpen
    ensures trial == Ok("[]")
    ensures after == CircuitState(0, false, Some(2))
  {
    var gateway := new Gateway(DefaultRegistry, 3, 30);
    var url := DefaultRegistry["telemetry"];
    assert gateway.circuits["telemetry"] == Closed;
    var headers := new HeaderDict(map["host" := "gateway", "x-api-key" := "key"]);

    ServerErrorCountsUp(Closed, url, 0, TransportError, 3, 30);
    var r := gateway.Forward("telemetry", headers, 0, TransportError);
    assert gateway.circuits["telemetry"] == CircuitState(1, false, Some(0));
    assert headers.entries.Keys == {"x-api-key"};

    ServerErrorCountsUp(CircuitState(1, false, Some(0)), url, 1, Response(502, None), 3, 30);
    r := gateway.Forward("telemetry", headers, 1, Response(502, None));
    ServerErrorCountsUp(CircuitState(2, false, Some(1)), url, 2, TransportError, 3, 30);
    r := gateway.Forward("telemetry", headers, 2, TransportError);
    assert gateway.circuits["telemetry"] == CircuitState(3, true, Some(2));

    RejectedWithinTimeout(CircuitState(3, true, Some(2)), url, 10, Response(200, Some("[]")), 3, 30);
    fourth := gateway.Forward("telemetry", headers, 10, Response(200, Some("[]")));

    TrialAfterTimeout(CircuitState(3, true, Some(2)), url, 33, Response(200, Some("[]")), 3, 30);
    SuccessResetsCount(CircuitState(0, false, Some(2)), url, 33, 200, "[]", 3, 30);
    trial := gateway.Forward("telemetry", headers, 33, Response(200, Some("[]")));
    after := gateway.circuits["telemetry"];
  }
}
