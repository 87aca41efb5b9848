/** `RtdeCommunicatorComponent`: hands the host's REST URL to `RtdeService`
    and keeps an `isMonitoring` flag that follows the successful outcomes of
    the start and stop requests it subscribes to. */
module RtdeCommunicator {
  import opened Common
  import opened RtdeClient

  /** The robot settings input; only its presence matters here. */
  datatype RobotSettings = RobotSettings(language: string)

  /** The application presenter API, seen through the one call the component
      makes on it: the URL `getContainerContributionURL(VENDOR_ID, URCAP_ID,
      'advanced-rtde-backend', 'rest-api')` returns. */
  datatype ApplicationApi = ApplicationApi(restApiUrl: string)

  /** One entry of Angular's `SimpleChanges`. */
  datatype Change<T> = Change(currentValue: Option<T>, firstChange: bool)

  datatype SimpleChanges = SimpleChanges(robotSettings: Option<Change<RobotSettings>>,
                                         applicationApi: Option<Change<ApplicationApi>>)

  /** The backend URL is handed over only when the change set reports robot
      settings and the API arrives for the first time. */
  predicate SetsBackendUrl(changes: SimpleChanges) {
    && changes.robotSettings.Some?
    && changes.applicationApi.Some?
    && changes.applicationApi.value.currentValue.Some?
    && changes.applicationApi.value.firstChange
  }

  class RtdeCommunicatorComponent {
    const rtdeService: RtdeService
    var isMonitoring: bool

    /** The service is the application-wide one that every instance of the
        component shares. */
    ghost predicate Valid()
      reads this, rtdeService
    {
      rtdeService.Valid()
    }

    /** The flag agrees with the shared service: it is true exactly when the
        last successful start or stop of the service was a start, which is
        exactly when the stored poll task is still subscribed. */
    ghost predicate InSync()
      reads this, rtdeService
    {
      isMonitoring == StartedLast(rtdeService.settled)
    }

    /** Creation.  `inject(RtdeService)` hands over the root singleton, which an
        earlier instance may have left polling; the new flag is false, so the
        component is in sync exactly when the service is not polling. */
    constructor(service: RtdeService)
      requires service.Valid()
      ensures Valid() && rtdeService == service
      ensures !isMonitoring
      ensures InSync() <==> !service.PollingActive()
    {
      rtdeService := service;
      isMonitoring := false;
    }

    /** `ngOnChanges`, without its translation handling: `proceeds` is false on
        the early return taken when the robot settings have no current value.
        The URL is handed over before that return. */
    method NgOnChanges(changes: SimpleChanges) returns (proceeds: bool)
      requires Valid()
      modifies rtdeService`backendUrl
      ensures Valid() && InSync() == old(InSync())
      ensures rtdeService.backendUrl ==
                if SetsBackendUrl(changes) then Some(changes.applicationApi.value.currentValue.value.restApiUrl)
                else old(rtdeService.backendUrl)
      ensures proceeds <==> changes.robotSettings.Some? && changes.robotSettings.value.currentValue.Some?
    {
      proceeds := false;
      if changes.robotSettings.Some? {
        if SetsBackendUrl(changes) {
          rtdeService.SetBackendUrl(changes.applicationApi.value.currentValue.value.restApiUrl);
        }
        if changes.robotSettings.value.currentValue.None? {
          return;
        }
        proceeds := true;
      }
    }

    /** `startMonitoring()`: subscribe to the service's start request. */
    method StartMonitoring()
      requires Valid()
      modifies rtdeService`requests, rtdeService`pendingStarts
      ensures Valid() && InSync() == old(InSync())
      ensures rtdeService.requests == old(rtdeService.requests) + [Post(EndpointUrl(rtdeService.backendUrl, "/start"), JObject(map[]))]
      ensures rtdeService.pendingStarts == old(rtdeService.pendingStarts) + 1
    {
      rtdeService.StartMonitoring();
    }

    /** The start request settles: the service's `tap` runs first, then the
        component's `next` sets the flag; its `error` handler only logs.  A
        success brings the flag in sync, a failure keeps it as it was. */
    method OnStartResult(outcome: Outcome<()>)
      requires Valid() && rtdeService.pendingStarts > 0
      modifies this`isMonitoring, rtdeService`pendingStarts, rtdeService`settled, rtdeService`error,
               rtdeService`pollingSubscription, rtdeService`livePollers, rtdeService`pollersStarted
      ensures Valid()
      ensures isMonitoring == if outcome.Ok? then true else old(isMonitoring)
      ensures outcome.Ok? ==> InSync() && rtdeService.PollingActive()
      ensures outcome.Err? ==> InSync() == old(InSync())
      ensures rtdeService.error == if outcome.Err? then Some(outcome.message) else old(rtdeService.error)
      ensures rtdeService.pendingStarts == old(rtdeService.pendingStarts) - 1
      ensures outcome.Ok? ==> && rtdeService.pollersStarted == old(rtdeService.pollersStarted) + 1
                              && rtdeService.livePollers == old(rtdeService.livePollers) + {old(rtdeService.pollersStarted)}
      ensures outcome.Err? ==> rtdeService.livePollers == old(rtdeService.livePollers)
                               && rtdeService.pollersStarted == old(rtdeService.pollersStarted)
    {
      rtdeService.OnStartResult(outcome);
      if outcome.Ok? {
        isMonitoring := true;
      }
    }

    /** `stopMonitoring()`: subscribe to the service's stop request. */
    method StopMonitoring()
      requires Valid()
      modifies rtdeService`requests, rtdeService`pendingStops
      ensures Valid() && InSync() == old(InSync())
      ensures rtdeService.requests == old(rtdeService.requests) + [Post(EndpointUrl(rtdeService.backendUrl, "/stop"), JObject(map[]))]
      ensures rtdeService.pendingStops == old(rtdeService.pendingStops) + 1
    {
      rtdeService.StopMonitoring();
    }

    /** The stop request settles: success clears the flag and brings it in
        sync, an error leaves it and leaves polling live. */
    method OnStopResult(outcome: Outcome<()>)
      requires Valid() && rtdeService.pendingStops > 0
      modifies this`isMonitoring, rtdeService`pendingStops, rtdeService`settled, rtdeService`error,
               rtdeService`livePollers
      ensures Valid()
      ensures isMonitoring == if outcome.Ok? then false else old(isMonitoring)
      ensures outcome.Ok? ==> InSync() && !rtdeService.PollingActive()
      ensures outcome.Err? ==> InSync() == old(InSync())
      ensures rtdeService.error == if outcome.Err? then Some(outcome.message) else old(rtdeService.error)
      ensures rtdeService.pendingStops == old(rtdeService.pendingStops) - 1
      ensures outcome.Ok? ==>
                rtdeService.livePollers == old(rtdeService.livePollers) -
                  (if rtdeService.pollingSubscription.Some? then {rtdeService.pollingSubscription.value} else {})
      ensures outcome.Err? ==> rtdeService.livePollers == old(rtdeService.livePollers)
    {
      rtdeService.OnStopResult(outcome);
      if outcome.Ok? {
        isMonitoring := false;
      }
    }
  }
}
