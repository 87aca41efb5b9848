/** `RtdeService` of the frontend: start/stop requests to the backend, a
    one-second poll task started by a successful start and cancelled by a
    successful stop, and four last-value slots (runtime state, safety status,
    TCP pose, error).

    HTTP responses and timer ticks are explicit calls: `OnStartResult`,
    `OnStopResult` and `OnFetchResult` deliver how a request settled, `Tick(p)`
    is one firing of poll task `p`.  Poll tasks are numbered in the order they
    are started; `livePollers` holds those not yet unsubscribed. */
module RtdeClient {
  import opened Common

  const BackendProtocol: string := "http:"

  /** A property read from the decoded JSON body: missing (`undefined` in
      TypeScript), `null`, or a value.  `/state` returns only the fields the
      backend has seen so far, and a field whose attribute went missing is `null`. */
  datatype Field<T> = Absent | Null | Value(value: T)

  /** The decoded body of `GET /state`, as the three properties the subscriber reads. */
  datatype Telemetry = Telemetry(runtimeState: Field<int>, safetyStatus: Field<int>, actualTcpPose: Field<seq<real>>)

  /** How one request of the service settled, in the order they settled. */
  datatype Settled =
    | StartSettled(start: Outcome<()>)
    | StopSettled(stop: Outcome<()>)
    | FetchSettled(fetch: Outcome<Telemetry>)

  /** `${this.backendUrl}`: a URL never set prints as "undefined". */
  function UrlText(backendUrl: Option<string>): string {
    match backendUrl
    case None => "undefined"
    case Some(u) => u
  }

  /** `${this.backendProtocol}//${this.backendUrl}` followed by an endpoint path. */
  function EndpointUrl(backendUrl: Option<string>, path: string): (r: string)
    ensures |r| == 7 + |UrlText(backendUrl)| + |path|
    ensures r[..7] == "http://" && r[|r| - |path|..] == path
    ensures r[7..|r| - |path|] == UrlText(backendUrl)
  {
    var r := BackendProtocol + "//" + UrlText(backendUrl) + path;
    assert r == "http://" + (UrlText(backendUrl) + path);
    r
  }

  /** The control and state URLs never coincide, whatever the backend URLs, and
      each one determines the backend URL it was built from. */
  lemma EndpointUrlsDistinct(a: Option<string>, b: Option<string>)
    ensures EndpointUrl(a, "/start") != EndpointUrl(b, "/stop")
    ensures EndpointUrl(a, "/start") != EndpointUrl(b, "/state")
    ensures EndpointUrl(a, "/stop") != EndpointUrl(b, "/state")
    ensures forall p :: p in {"/start", "/stop", "/state"} ==>
              (EndpointUrl(a, p) == EndpointUrl(b, p) <==> UrlText(a) == UrlText(b))
  {
    var start, stop, state := EndpointUrl(a, "/start"), EndpointUrl(b, "/stop"), EndpointUrl(b, "/state");
    assert start[|start| - 1] == "/start"[5];
    assert stop[|stop| - 1] == "/stop"[4];
    assert state[|state| - 1] == "/state"[5];
    var stopA := EndpointUrl(a, "/stop");
    assert stopA[|stopA| - 1] == "/stop"[4];
  }

  /** The message of the most recent failed request, or null. */
  ghost function LastError(h: seq<Settled>): Option<string>
    decreases |h|
  {
    if h == [] then None
    else match h[|h| - 1]
      case StartSettled(Err(m)) => Some(m)
      case StopSettled(Err(m)) => Some(m)
      case FetchSettled(Err(m)) => Some(m)
      case _ => LastError(h[..|h| - 1])
  }

  /** The body of the most recent successful `GET /state`, or null. */
  ghost function LastTelemetry(h: seq<Settled>): Option<Telemetry>
    decreases |h|
  {
    if h == [] then None
    else match h[|h| - 1]
      case FetchSettled(Ok(t)) => Some(t)
      case _ => LastTelemetry(h[..|h| - 1])
  }

  /** Whether the most recent successful start or stop was a start. */
  ghost function StartedLast(h: seq<Settled>): bool
    decreases |h|
  {
    if h == [] then false
    else match h[|h| - 1]
      case StartSettled(Ok(_)) => true
      case StopSettled(Ok(_)) => false
      case _ => StartedLast(h[..|h| - 1])
  }

  /** The three reference definitions, one step further. */
  lemma HistoryStep(h: seq<Settled>, s: Settled)
    ensures LastError(h + [s]) == match s
      case StartSettled(Err(m)) => Some(m)
      case StopSettled(Err(m)) => Some(m)
      case FetchSettled(Err(m)) => Some(m)
      case _ => LastError(h)
    ensures LastTelemetry(h + [s]) == if s.FetchSettled? && s.fetch.Ok? then Some(s.fetch.body) else LastTelemetry(h)
    ensures StartedLast(h + [s]) == match s
      case StartSettled(Ok(_)) => true
      case StopSettled(Ok(_)) => false
      case _ => StartedLast(h)
  {
  }

  class RtdeService {
    var backendUrl: Option<string>
    var pollingSubscription: Option<nat>   // the most recently started poll task
    var livePollers: set<nat>              // poll tasks still subscribed
    var pollersStarted: nat
    var runtimeState: Field<int>           // the three telemetry subjects, `null` at first
    var safetyStatus: Field<int>
    var actualTcpPose: Field<seq<real>>
    var error: Option<string>
    var requests: seq<Request>             // every HTTP request issued, in order
    var pendingStarts: nat                 // start requests not yet settled
    var pendingStops: nat
    var pendingFetches: nat
    ghost var settled: seq<Settled>        // every request outcome delivered, in order

    /** The slots show the last successful fetch and the last failure;
        the handle names the newest poll task, which is live exactly when the
        last successful start or stop was a start. */
    ghost predicate Valid()
      reads this
    {
      && (forall p :: p in livePollers ==> p < pollersStarted)
      && pollingSubscription == (if pollersStarted == 0 then None else Some(pollersStarted - 1))
      && (PollingActive() <==> StartedLast(settled))
      && error == LastError(settled)
      && match LastTelemetry(settled)
         case None => runtimeState == Null && safetyStatus == Null && actualTcpPose == Null
         case Some(t) => runtimeState == t.runtimeState && safetyStatus == t.safetyStatus
                         && actualTcpPose == t.actualTcpPose
    }

    /** The stored handle names a poll task that is still subscribed. */
    ghost predicate PollingActive()
      reads this
    {
      pollingSubscription.Some? && pollingSubscription.value in livePollers
    }

    constructor()
      ensures Valid()
      ensures backendUrl == None && pollingSubscription == None && livePollers == {} && pollersStarted == 0
      ensures runtimeState == Null && safetyStatus == Null && actualTcpPose == Null && error == None
      ensures requests == [] && pendingStarts == 0 && pendingStops == 0 && pendingFetches == 0
      ensures settled == []
    {
      backendUrl, pollingSubscription, livePollers, pollersStarted := None, None, {}, 0;
      runtimeState, safetyStatus, actualTcpPose, error := Null, Null, Null, None;
      requests, pendingStarts, pendingStops, pendingFetches := [], 0, 0, 0;
      settled := [];
    }

    method SetBackendUrl(url: string)
      requires Valid()
      modifies this`backendUrl
      ensures Valid() && backendUrl == Some(url)
    {
      backendUrl := Some(url);
    }

    /** `startMonitoring()` as subscribed: `POST <backend>/start` with body `{}`. */
    method StartMonitoring()
      requires Valid()
      modifies this`requests, this`pendingStarts
      ensures Valid()
      ensures requests == old(requests) + [Post(EndpointUrl(backendUrl, "/start"), JObject(map[]))]
      ensures pendingStarts == old(pendingStarts) + 1
    {
      requests := requests + [Post(EndpointUrl(backendUrl, "/start"), JObject(map[]))];
      pendingStarts := pendingStarts + 1;
    }

    /** The `tap` of `startMonitoring`: success starts a poll task (without
        cancelling an earlier one), failure only records the message. */
    method OnStartResult(outcome: Outcome<()>)
      requires Valid() && pendingStarts > 0
      modifies this`pendingStarts, this`settled, this`error,
               this`pollingSubscription, this`livePollers, this`pollersStarted
      ensures Valid()
      ensures pendingStarts == old(pendingStarts) - 1 && settled == old(settled) + [StartSettled(outcome)]
      ensures outcome.Ok? ==> && pollersStarted == old(pollersStarted) + 1
                              && livePollers == old(livePollers) + {old(pollersStarted)}
                              && pollingSubscription == Some(old(pollersStarted))
                              && error == old(error)
      ensures outcome.Err? ==> && error == Some(outcome.message)
                               && pollersStarted == old(pollersStarted) && livePollers == old(livePollers)
                               && pollingSubscription == old(pollingSubscription)
    {
      pendingStarts := pendingStarts - 1;
      HistoryStep(settled, StartSettled(outcome));
      settled := settled + [StartSettled(outcome)];
      match outcome
      case Ok(_) => StartPolling();
      case Err(m) => error := Some(m);
    }

    /** `stopMonitoring()` as subscribed: `POST <backend>/stop` with body `{}`. */
    method StopMonitoring()
      requires Valid()
      modifies this`requests, this`pendingStops
      ensures Valid()
      ensures requests == old(requests) + [Post(EndpointUrl(backendUrl, "/stop"), JObject(map[]))]
      ensures pendingStops == old(pendingStops) + 1
    {
      requests := requests + [Post(EndpointUrl(backendUrl, "/stop"), JObject(map[]))];
      pendingStops := pendingStops + 1;
    }

    /** The `tap` of `stopMonitoring`: success cancels the stored poll task,
        failure only records the message and polling goes on. */
    method OnStopResult(outcome: Outcome<()>)
      requires Valid() && pendingStops > 0
      modifies this`pendingStops, this`settled, this`error, this`livePollers
      ensures Valid()
      ensures pendingStops == old(pendingStops) - 1 && settled == old(settled) + [StopSettled(outcome)]
      ensures outcome.Ok? ==> && livePollers == old(livePollers) - (if pollingSubscription.Some? then {pollingSubscription.value} else {})
                              && !PollingActive()
                              && error == old(error)
      ensures outcome.Err? ==> error == Some(outcome.message) && livePollers == old(livePollers)
    {
      pendingStops := pendingStops - 1;
      HistoryStep(settled, StopSettled(outcome));
      settled := settled + [StopSettled(outcome)];
      match outcome
      case Ok(_) => StopPolling();
      case Err(m) => error := Some(m);
    }

    /** `fetchState()`: `GET <backend>/state`, with the URL as it is now. */
    method FetchState()
      requires Valid()
      modifies this`requests, this`pendingFetches
      ensures Valid()
      ensures requests == old(requests) + [Get(EndpointUrl(backendUrl, "/state"))]
      ensures pendingFetches == old(pendingFetches) + 1
    {
      requests := requests + [Get(EndpointUrl(backendUrl, "/state"))];
      pendingFetches := pendingFetches + 1;
    }

    /** The subscriber of `fetchState`: success publishes all three telemetry
        properties as they are, `undefined` included, failure only the error;
        a result is never discarded, even when polling has been stopped since
        the request was issued. */
    method OnFetchResult(outcome: Outcome<Telemetry>)
      requires Valid() && pendingFetches > 0
      modifies this`pendingFetches, this`settled, this`error,
               this`runtimeState, this`safetyStatus, this`actualTcpPose
      ensures Valid()
      ensures pendingFetches == old(pendingFetches) - 1 && settled == old(settled) + [FetchSettled(outcome)]
      ensures outcome.Ok? ==> && runtimeState == outcome.body.runtimeState
                              && safetyStatus == outcome.body.safetyStatus
                              && actualTcpPose == outcome.body.actualTcpPose
                              && error == old(error)
      ensures outcome.Err? ==> && error == Some(outcome.message)
                               && runtimeState == old(runtimeState) && safetyStatus == old(safetyStatus)
                               && actualTcpPose == old(actualTcpPose)
    {
      pendingFetches := pendingFetches - 1;
      HistoryStep(settled, FetchSettled(outcome));
      settled := settled + [FetchSettled(outcome)];
      match outcome
      case Ok(t) =>
        runtimeState := t.runtimeState;
        safetyStatus := t.safetyStatus;
        actualTcpPose := t.actualTcpPose;
      case Err(m) =>
        error := Some(m);
    }

    /** `startPolling()`: subscribe a new one-second task and store its handle
        in place of the previous one. */
    method StartPolling()
      modifies this`pollingSubscription, this`livePollers, this`pollersStarted
      ensures pollersStarted == old(pollersStarted) + 1
      ensures livePollers == old(livePollers) + {old(pollersStarted)}
      ensures pollingSubscription == Some(old(pollersStarted))
    {
      livePollers := livePollers + {pollersStarted};
      pollingSubscription := Some(pollersStarted);
      pollersStarted := pollersStarted + 1;
    }

    /** `stopPolling()`: unsubscribe the stored handle, if there is one.  The
        handle itself is kept. */
    method StopPolling()
      modifies this`livePollers
      ensures livePollers == old(livePollers) - (if pollingSubscription.Some? then {pollingSubscription.value} else {})
      ensures !PollingActive()
    {
      if pollingSubscription.Some? {
        livePollers := livePollers - {pollingSubscription.value};
      }
    }

    /** One firing of poll task `poller`: a live task issues exactly one fetch,
        a cancelled one none. */
    method Tick(poller: nat) returns (fetched: bool)
      requires Valid()
      modifies this`requests, this`pendingFetches
      ensures Valid()
      ensures fetched <==> poller in livePollers
      ensures requests == old(requests) + (if fetched then [Get(EndpointUrl(backendUrl, "/state"))] else [])
      ensures pendingFetches == old(pendingFetches) + (if fetched then 1 else 0)
    {
      fetched := poller in livePollers;
      if fetched {
        FetchState();
      }
    }
  }
}
