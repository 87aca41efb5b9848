/** Event sequences replayed against the frontend classes: what the code does
    when starts and stops fail or repeat, before the URL is known, and when a
    second component instance shares the service. */
module Scenarios {
  import opened Common
  import opened RtdeClient
  import opened RtdeCommunicator
  import opened BackendClient

  /** Start succeeds, one tick yields a sample, stop succeeds: the sample is
      published and the stopped poll task fetches nothing more. */
  method StartFetchStop() returns (runtimeState: Field<int>, safetyStatus: Field<int>,
                                   pose: Field<seq<real>>, fetchedAfterStop: bool)
    ensures runtimeState == Value(1) && safetyStatus == Value(2) && pose == Value([0.0, 0.0, 0.0, 0.0, 0.0, 0.0])
    ensures !fetchedAfterStop
  {
    var s := new RtdeService();
    var c := new RtdeCommunicatorComponent(s);
    c.StartMonitoring();
    c.OnStartResult(Ok(()));
    var fetched := s.Tick(0);
    var sample := Telemetry(Value(1), Value(2), Value([0.0, 0.0, 0.0, 0.0, 0.0, 0.0]));
    s.OnFetchResult(Ok(sample));
    c.StopMonitoring();
    c.OnStopResult(Ok(()));
    runtimeState, safetyStatus, pose := s.runtimeState, s.safetyStatus, s.actualTcpPose;
    fetchedAfterStop := s.Tick(0);
  }

  /** The start URL before the host has supplied one. */
  lemma StartUrlWithoutBackend()
    ensures EndpointUrl(None, "/start") == "http://undefined/start"
  {
  }

  /** The start URL once the host has supplied `host/backend`. */
  lemma StartUrlOfBackend()
    ensures EndpointUrl(Some("host/backend"), "/start") == "http://host/backend/start"
  {
  }

  /** A start issued before the host supplied a URL goes to "http://undefined/start";
      a later change set hands the URL over even when the robot settings have no
      current value, and the next start uses it. */
  method StartBeforeUrl() returns (requests: seq<Request>, proceeds: bool)
    ensures requests == [Post("http://undefined/start", JObject(map[])), Post("http://host/backend/start", JObject(map[]))]
    ensures !proceeds
  {
    var s := new RtdeService();
    var c := new RtdeCommunicatorComponent(s);
    c.StartMonitoring();
    proceeds := c.NgOnChanges(SimpleChanges(Some(Change(None, true)), Some(Change(Some(ApplicationApi("host/backend")), true))));
    c.StartMonitoring();
    StartUrlWithoutBackend();
    StartUrlOfBackend();
    requests := s.requests;
  }

  /** The start request fails: the flag stays false, the error slot shows the
      message and no poll task exists, so no tick ever fetches. */
  method StartFails() returns (monitoring: bool, error: Option<string>, pollers: set<nat>)
    ensures !monitoring && error == Some("Http failure response: 500") && pollers == {}
  {
    var s := new RtdeService();
    var c := new RtdeCommunicatorComponent(s);
    c.StartMonitoring();
    c.OnStartResult(Err("Http failure response: 500"));
    monitoring, error, pollers := c.isMonitoring, s.error, s.livePollers;
  }

  /** The stop request fails: the flag stays true and polling goes on. */
  method StopFails() returns (monitoring: bool, fetched: bool)
    ensures monitoring && fetched
  {
    var s := new RtdeService();
    var c := new RtdeCommunicatorComponent(s);
    c.StartMonitoring();
    c.OnStartResult(Ok(()));
    c.StopMonitoring();
    c.OnStopResult(Err("Http failure response: 503"));
    monitoring := c.isMonitoring;
    fetched := s.Tick(0);
  }

  /** Two successful starts, then a successful stop: the flag is false, but the
      first poll task was never unsubscribed and keeps fetching. */
  method SecondStartOrphansFirstPoller() returns (monitoring: bool, fetched: bool)
    ensures !monitoring && fetched
  {
    var s := new RtdeService();
    var c := new RtdeCommunicatorComponent(s);
    c.StartMonitoring();
    c.OnStartResult(Ok(()));
    c.StartMonitoring();
    c.OnStartResult(Ok(()));
    c.StopMonitoring();
    c.OnStopResult(Ok(()));
    monitoring := c.isMonitoring;
    fetched := s.Tick(0);
  }

  /** A state fetched before the backend has seen a sample is `{}`: all three
      slots become `undefined`, which is neither `null` nor a value. */
  method EmptyStateBeforeFirstSample() returns (runtimeState: Field<int>, safetyStatus: Field<int>,
                                                pose: Field<seq<real>>)
    ensures runtimeState == Absent && safetyStatus == Absent && pose == Absent
  {
    var s := new RtdeService();
    var c := new RtdeCommunicatorComponent(s);
    c.StartMonitoring();
    c.OnStartResult(Ok(()));
    var fetched := s.Tick(0);
    var empty := Telemetry(Absent, Absent, Absent);
    s.OnFetchResult(Ok(empty));
    runtimeState, safetyStatus, pose := s.runtimeState, s.safetyStatus, s.actualTcpPose;
  }

  /** A second instance of the component, created while the first one's poll
      task runs, gets the same service with its flag false, although that
      service is still polling.  Its successful
      stop cancels the task and brings it in sync, while the first instance's
      flag stays true. */
  method SecondComponentOnPollingService()
    returns (secondFlagAtStart: bool, fetchedBefore: bool, fetchedAfter: bool,
             firstFlag: bool, secondFlag: bool)
    ensures !secondFlagAtStart && fetchedBefore && !fetchedAfter
    ensures firstFlag && !secondFlag
  {
    var s := new RtdeService();
    var first := new RtdeCommunicatorComponent(s);
    first.StartMonitoring();
    first.OnStartResult(Ok(()));
    var second := new RtdeCommunicatorComponent(s);
    secondFlagAtStart := second.isMonitoring;
    fetchedBefore := s.Tick(0);
    second.StopMonitoring();
    second.OnStopResult(Ok(()));
    fetchedAfter := s.Tick(0);
    firstFlag, secondFlag := first.isMonitoring, second.isMonitoring;
  }

  /** Connecting twice while the first socket is open leaves one socket;
      connecting twice before it has opened creates two. */
  method ConnectTwice() returns (afterOpen: nat, beforeOpen: nat)
    ensures afterOpen == 1 && beforeOpen == 2
  {
    var b := new BackendService();
    b.Connect("host");
    b.OnOpen(0);
    b.Connect("host");
    afterOpen := |b.sockets|;
    var d := new BackendService();
    d.Connect("host");
    d.Connect("host");
    beforeOpen := |d.sockets|;
  }

  /** Disconnecting a service that never connected changes nothing. */
  method DisconnectNeverConnected() returns (sockets: seq<Socket>, data: Json)
    ensures sockets == [] && data == JNull
  {
    var b := new BackendService();
    b.Disconnect();
    sockets, data := b.sockets, b.data;
  }

  lemma DigitalOutputUrlOfHost()
    ensures DigitalOutputUrl("host") == "http://host/set-digital-output"
  {
  }

  /** `setDigitalOutput(url, 3, 1)` posts `{digital_output: 3, value: 1, offset: 0}`. */
  method SetDigitalOutputDefaultOffset() returns (requests: seq<Request>)
    ensures requests == [Post("http://host/set-digital-output",
                              JObject(map["digital_output" := JNumber(3.0), "value" := JNumber(1.0), "offset" := JNumber(0.0)]))]
  {
    var b := new BackendService();
    b.SetDigitalOutput("host", 3, 1);
    DigitalOutputUrlOfHost();
    requests := b.requests;
  }
}
