# advanced-rtde: a Dafny model

The advanced-rtde URCap connects a UI widget to a robot controller's RTDE
telemetry. Its backend (FastAPI, Python) runs a monitoring thread. The thread
keeps the latest runtime state, safety status and TCP pose, and the backend
sets digital outputs. Its frontend (Angular, TypeScript) starts and stops that
monitoring, polls `/state` once a second and keeps a WebSocket push channel.

The model covers five parts:

- `DigitalOutputs` (with `PyBits`): `set_digital_outputs`, on Python's
  unbounded two's-complement integers. `&`, `|`, `~`, `<<` and `>>` are
  written out as recursive functions. The model proves the error conditions,
  the byte range, the one-bit mask, the written bit, that no other bit
  changes, and idempotence.
- `RtdeBackend`: the monitoring loop of `main.py` and its field diff. It
  also models the flags that `/start` and `/stop` change and the `/state`
  read.
- `RtdeClient`: the `RtdeService` class. It holds the start/stop requests,
  the poll tasks and four last-value slots.
- `RtdeCommunicator`: the component's `isMonitoring` flag and the URL
  hand-over in `ngOnChanges`.
- `BackendClient`: the `BackendService` class. It holds the socket life
  cycle, the data and random-number slots, and the REST helpers.

`Scenarios` replays event sequences against the frontend classes.

Asynchrony becomes explicit events. HTTP responses are calls such as
`OnStartResult(outcome)`, one firing of poll task `p` is `Tick(p)`, and socket
events are `OnOpen`, `OnClose` and `OnMessage`. Per-pass `Observation`s drive
the backend loop. Each observation records what that pass saw of the stop
event, of the connection and of `receive()`. A ghost history of settled
requests (`settled`) gives the reference definitions `LastError`,
`LastTelemetry` and `StartedLast`. The service's invariant ties the slots to
these definitions. It also says that the stored poll task is live exactly when
the last successful start or stop was a start.

`RtdeService` is a root singleton (`providedIn: 'root'`). Every component
instance gets the same service from `inject`, and a component that goes away
does not stop polling. So the component's flag agrees with the service
(`InSync`) only when it was created on a service that was not polling. Any
successful start or stop brings it back in sync
(`Scenarios.SecondComponentOnPollingService`).

The code has no guard on start, stop or connect, and some results are never
discarded:

- A second successful start stores a new poll handle. It does not unsubscribe
  the first task, which keeps fetching after a later successful stop
  (`Scenarios.SecondStartOrphansFirstPoller`).
- A failed stop leaves polling running and `isMonitoring` true
  (`Scenarios.StopFails`).
- Nothing guards a start while one is in flight or already active.
- Fetch responses are never discarded or serialised, even after a stop.
- `connect` only skips when the socket is OPEN. Two connects before the first
  opens create two sockets (`Scenarios.ConnectTwice`).
- A decode error in `onmessage` is not caught.
- On the backend, `/start` while monitoring starts a second thread, and
  `/stop` joins only the most recent one.

## Model

| member | source | states |
|---|---|---|
| PyBits.AndBit | advanced-rtde-backend/src/utils.py:24 | bit `i` of `a & b` is the product of the bits of `a` and `b`, for all Python integers |
| PyBits.OrBit | advanced-rtde-backend/src/utils.py:28 | bit `i` of `a \| b` is set iff it is set in `a` or in `b` |
| PyBits.NotBit | advanced-rtde-backend/src/utils.py:24 | `~a` flips every bit |
| PyBits.ShlBit | advanced-rtde-backend/src/utils.py:21 | bit `i` of `a << n` is 0 below `n` and bit `i - n` of `a` above |
| PyBits.ShrBit | advanced-rtde-backend/src/utils.py:31 | bit `i` of `a >> n` is bit `i + n` of `a` |
| PyBits.OneShlBit | advanced-rtde-backend/src/utils.py:21 | `1 << k` has exactly one bit set, bit `k` |
| PyBits.LowMaskBit | advanced-rtde-backend/src/utils.py:31 | `(1 << n) - 1` has exactly bits `0..n-1` set |
| PyBits.ByteMaskBit | advanced-rtde-backend/src/utils.py:31 | `0xFF` has exactly bits 0..7 set |
| PyBits.BitsDetermine | advanced-rtde-backend/src/utils.py:31 | two integers with equal bits at every position are equal |
| PyBits.AndBounded | advanced-rtde-backend/src/utils.py:31 | masking with a non-negative `b` yields a value in `0..b` |
| DigitalOutputs.UpdatedStateBit | advanced-rtde-backend/src/utils.py:21-28 | clear-then-maybe-set changes only bit `digital_output + offset`, which becomes `value` |
| DigitalOutputs.SetDigitalOutputs | advanced-rtde-backend/src/utils.py:4-31 | error iff output outside 0..7, else iff value not 0/1, else iff negative offset (in that order); on success both results lie in 0..255, the mask is `1 << digital_output` with exactly one bit set, bit `digital_output` of the state is `value` and every other bit `i < 8` is bit `i + offset` of the input |
| DigitalOutputs.WindowFacts | advanced-rtde-backend/src/utils.py:21-31 | every bit of the returned byte: the written value, the input's bit `i + offset`, or 0 above bit 7; the shifted, masked mask equals `1 << digital_output` |
| DigitalOutputs.SetDigitalOutputsIdempotent | advanced-rtde-backend/src/utils.py:21-31 | writing the same output and value into the returned byte with offset 0 returns the same byte and mask |
| RtdeBackend.InitialPrevious | advanced-rtde-backend/src/main.py:26-32 | `previous_state` starts with exactly the four monitored fields, all `None` |
| RtdeBackend.DiffFields | advanced-rtde-backend/src/main.py:46-51 | `updates` holds exactly the monitored fields whose value (a missing attribute counting as `None`) differs from `previous_state`, with their new values; afterwards `previous_state` holds the sample's value for every monitored field |
| RtdeBackend.Merge | advanced-rtde-backend/src/main.py:53-55 | `latest_state` takes the values of `updates` on its keys and keeps every other key; empty `updates` leave it as it was |
| RtdeBackend.MonitorKeepsKeys | advanced-rtde-backend/src/main.py:26-55 | only the four monitored field names ever become keys of `latest_state` |
| RtdeBackend.MonitorExitsAtFirstExit | advanced-rtde-backend/src/main.py:34-42 | the loop processes every sample before the first pass that sees the stop event, an exception, a closed connection or a `None` sample, and ends for that reason |
| RtdeBackend.RepeatedSampleChangesNothing | advanced-rtde-backend/src/main.py:47-51 | once remembered, the same sample produces no updates |
| RtdeBackend.Server.constructor | advanced-rtde-backend/src/main.py:13-16 | no connection, empty `latest_state`, stop event clear |
| RtdeBackend.Server.StartMonitoring | advanced-rtde-backend/src/main.py:63-71 | clears the stop flag, sets the connection, starts one more monitor thread, leaves `latest_state` |
| RtdeBackend.Server.StopMonitoring | advanced-rtde-backend/src/main.py:73-83 | sets the stop flag, drops the connection, keeps `latest_state` |
| RtdeBackend.Server.GetLatestState | advanced-rtde-backend/src/main.py:85-87 | returns `latest_state`, whose keys are monitored field names |
| RtdeBackend.Server.MonitorRuntimeState | advanced-rtde-backend/src/main.py:24-60 | the `while` loop's final `latest_state`, exit reason and pass count are those of the reference `Monitor` |
| RtdeClient.EndpointUrl | advanced-rtde-frontend/src/app/components/rtde-communicator/rtde.service.ts:32 | the URL is `http://`, then the backend URL (`undefined` if never set), then the path |
| RtdeClient.EndpointUrlsDistinct | advanced-rtde-frontend/src/app/components/rtde-communicator/rtde.service.ts:27-52 | start, stop and state URLs never coincide, and each determines the backend URL it was built from |
| RtdeClient.HistoryStep | advanced-rtde-frontend/src/app/components/rtde-communicator/rtde.service.ts:33-59 | how one more settled request changes the last error, the last telemetry and the last successful control outcome |
| RtdeClient.RtdeService.constructor | advanced-rtde-frontend/src/app/components/rtde-communicator/rtde.service.ts:12-18 | all four slots null, no URL, no handle, no poll task |
| RtdeClient.RtdeService.SetBackendUrl | advanced-rtde-frontend/src/app/components/rtde-communicator/rtde.service.ts:27-29 | records the URL used by every later request |
| RtdeClient.RtdeService.StartMonitoring | advanced-rtde-frontend/src/app/components/rtde-communicator/rtde.service.ts:31-33 | issues one `POST http://<url>/start` |
| RtdeClient.RtdeService.OnStartResult | advanced-rtde-frontend/src/app/components/rtde-communicator/rtde.service.ts:33-38 | success starts a new poll task and stores its handle without cancelling an earlier task; failure writes the message to the error slot and starts nothing; the invariant is kept |
| RtdeClient.RtdeService.StopMonitoring | advanced-rtde-frontend/src/app/components/rtde-communicator/rtde.service.ts:41-43 | issues one `POST http://<url>/stop` |
| RtdeClient.RtdeService.OnStopResult | advanced-rtde-frontend/src/app/components/rtde-communicator/rtde.service.ts:43-48 | success cancels the stored task, so no stored task is active; failure only writes the error slot and leaves every task live |
| RtdeClient.RtdeService.FetchState | advanced-rtde-frontend/src/app/components/rtde-communicator/rtde.service.ts:51-53 | issues one `GET http://<url>/state` with the current URL |
| RtdeClient.RtdeService.OnFetchResult | advanced-rtde-frontend/src/app/components/rtde-communicator/rtde.service.ts:53-60 | success copies the three properties of the body into the slots as they are (`undefined` when the backend has not reported a field, `null` when it reported `None`) and leaves the error slot; failure sets only the error slot; the slots stay equal to the last successful fetch and the last failure |
| RtdeClient.RtdeService.StartPolling | advanced-rtde-frontend/src/app/components/rtde-communicator/rtde.service.ts:63-67 | adds one live task and overwrites the handle with it |
| RtdeClient.RtdeService.StopPolling | advanced-rtde-frontend/src/app/components/rtde-communicator/rtde.service.ts:69-73 | unsubscribes the stored handle if any; with no handle nothing changes |
| RtdeClient.RtdeService.Tick | advanced-rtde-frontend/src/app/components/rtde-communicator/rtde.service.ts:64-66 | a live task's tick issues exactly one state fetch, a cancelled task's none |
| RtdeCommunicator.RtdeCommunicatorComponent.constructor | advanced-rtde-frontend/src/app/components/rtde-communicator/rtde-communicator.component.ts:21-28 | takes the shared service as it is; `isMonitoring` starts false, so the new instance is in sync with the service iff the service is not polling |
| RtdeCommunicator.RtdeCommunicatorComponent.NgOnChanges | advanced-rtde-frontend/src/app/components/rtde-communicator/rtde-communicator.component.ts:36-45 | the URL is handed over iff the change set has `robotSettings` and `applicationAPI` is present on its first change, whether or not the early return follows; the method goes on iff robot settings have a current value |
| RtdeCommunicator.RtdeCommunicatorComponent.StartMonitoring | advanced-rtde-frontend/src/app/components/rtde-communicator/rtde-communicator.component.ts:63-64 | subscribes, so one start request is issued |
| RtdeCommunicator.RtdeCommunicatorComponent.OnStartResult | advanced-rtde-frontend/src/app/components/rtde-communicator/rtde-communicator.component.ts:64-72 | success sets `isMonitoring` and makes it agree with the service (a live stored task); an error leaves the flag, and whether it agrees, unchanged |
| RtdeCommunicator.RtdeCommunicatorComponent.StopMonitoring | advanced-rtde-frontend/src/app/components/rtde-communicator/rtde-communicator.component.ts:75-76 | subscribes, so one stop request is issued |
| RtdeCommunicator.RtdeCommunicatorComponent.OnStopResult | advanced-rtde-frontend/src/app/components/rtde-communicator/rtde-communicator.component.ts:76-84 | success clears `isMonitoring` and makes it agree with the service (no live stored task); an error leaves the flag, the live tasks and whether it agrees unchanged |
| BackendClient.AfterClose | advanced-rtde-frontend/src/app/components/rtde-communicator/backend.service.ts:32 | `close()` leaves no socket connecting or open, and leaves a closing or closed one as it is |
| BackendClient.SocketUrl | advanced-rtde-frontend/src/app/components/rtde-communicator/backend.service.ts:16-23 | `ws://`, then the given URL, then `/ws` |
| BackendClient.RandomNumberUrl | advanced-rtde-frontend/src/app/components/rtde-communicator/backend.service.ts:38 | `http://`, then the given URL, then `/random-number` |
| BackendClient.DigitalOutputUrl | advanced-rtde-frontend/src/app/components/rtde-communicator/backend.service.ts:45 | `http://`, then the given URL, then `/set-digital-output` |
| BackendClient.DigitalOutputBody | advanced-rtde-frontend/src/app/components/rtde-communicator/backend.service.ts:46 | exactly the keys `digital_output`, `value`, `offset`, holding the arguments |
| BackendClient.BackendUrlsDistinct | advanced-rtde-frontend/src/app/components/rtde-communicator/backend.service.ts:16-46 | the socket, random-number and digital-output URLs never coincide, and each determines the host it was built from |
| BackendClient.BackendService.constructor | advanced-rtde-frontend/src/app/components/rtde-communicator/backend.service.ts:9-11 | no socket; data and random-number slots null |
| BackendClient.BackendService.Connect | advanced-rtde-frontend/src/app/components/rtde-communicator/backend.service.ts:21-28 | creates a socket to `ws://<url>/ws` iff there is none or it is not OPEN; otherwise changes nothing |
| BackendClient.BackendService.Disconnect | advanced-rtde-frontend/src/app/components/rtde-communicator/backend.service.ts:30-35 | with no socket nothing changes; otherwise the socket is closed and the data slot reset to null |
| BackendClient.BackendService.OnOpen | advanced-rtde-frontend/src/app/components/rtde-communicator/backend.service.ts:25 | the browser opens a connecting socket; the handler itself only logs, so nothing else of the service changes |
| BackendClient.BackendService.OnClose | advanced-rtde-frontend/src/app/components/rtde-communicator/backend.service.ts:26 | the browser closes a socket; the handler itself only logs, and the `socket` field keeps the closed socket |
| BackendClient.BackendService.OnMessage | advanced-rtde-frontend/src/app/components/rtde-communicator/backend.service.ts:24 | the data slot holds the latest parsed payload only |
| BackendClient.BackendService.FetchRandomNumber | advanced-rtde-frontend/src/app/components/rtde-communicator/backend.service.ts:37-39 | issues one `GET http://<url>/random-number` |
| BackendClient.BackendService.OnRandomNumberResult | advanced-rtde-frontend/src/app/components/rtde-communicator/backend.service.ts:39-41 | a response sets the slot to `random_number`; a failure leaves it unchanged |
| BackendClient.BackendService.SetDigitalOutput | advanced-rtde-frontend/src/app/components/rtde-communicator/backend.service.ts:44-47 | issues one POST of `{digital_output, value, offset}` with `offset` defaulting to 0 |
| Scenarios.StartFetchStop | advanced-rtde-frontend/src/app/components/rtde-communicator/rtde.service.ts:31-73 | start, one sample, stop: the slots show the sample and the stopped task fetches nothing more |
| Scenarios.StartBeforeUrl | advanced-rtde-frontend/src/app/components/rtde-communicator/rtde-communicator.component.ts:37-45 | a start before the URL is set goes to `http://undefined/start`; the URL is handed over before the early return |
| Scenarios.StartFails | advanced-rtde-frontend/src/app/components/rtde-communicator/rtde.service.ts:33-38 | a failed start leaves `isMonitoring` false, writes the error slot and creates no poll task |
| Scenarios.EmptyStateBeforeFirstSample | advanced-rtde-frontend/src/app/components/rtde-communicator/rtde.service.ts:53-57 | a fetch answered with `{}` leaves all three slots `undefined` |
| Scenarios.StopFails | advanced-rtde-frontend/src/app/components/rtde-communicator/rtde.service.ts:43-48 | a failed stop leaves `isMonitoring` true and polling running |
| Scenarios.SecondStartOrphansFirstPoller | advanced-rtde-frontend/src/app/components/rtde-communicator/rtde.service.ts:63-73 | after two starts and a stop, `isMonitoring` is false, yet the first task still fetches |
| Scenarios.SecondComponentOnPollingService | advanced-rtde-frontend/src/app/components/rtde-communicator/rtde-communicator.component.ts:21-28 | a second instance, created while the shared service is polling, starts with its flag false; its successful stop cancels the task, and the first instance's flag stays true |
| Scenarios.ConnectTwice | advanced-rtde-frontend/src/app/components/rtde-communicator/backend.service.ts:21-28 | two connects with the first socket OPEN leave one socket; two before it opens leave two |
| Scenarios.DisconnectNeverConnected | advanced-rtde-frontend/src/app/components/rtde-communicator/backend.service.ts:30-35 | disconnecting a service that never connected changes nothing |
| Scenarios.SetDigitalOutputDefaultOffset | advanced-rtde-frontend/src/app/components/rtde-communicator/backend.service.ts:44-47 | `setDigitalOutput(url, 3, 1)` posts `{digital_output: 3, value: 1, offset: 0}` |

## Left out

- Translation, change detection and `saveNode` of the component: UI and host calls with no logic.
- `app.module.ts`, the behavior worker and the component's spec file: wiring, registration and a creation test.
- `HttpClient`, `WebSocket`, rxjs and FastAPI internals. The model has request logs and result events instead. The 1000 ms period of `interval` is not modelled; a tick is an event.
- Threads, `join`, `Event`, logging and the `connector` module, which is not part of this model. The loop's view of the stop event, of the connection, of exceptions and of `receive()` comes from each `Observation`.
- RtdeBackend.Server.MonitorRuntimeState: runs over a finite sequence of passes. An infinite loop that never meets an exit condition is not modelled.
- RtdeBackend.Server.StopMonitoring: does not model `join` blocking. It also does not model that an earlier monitor thread started by a repeated `/start` can still write `latest_state`.
- Python's `!=` on floats is treated as structural equality. A NaN pose value compares unequal to itself in Python and would be reported again on every pass.
- `JSON.parse` is a parameter of `OnMessage`. Its parse errors, which the code does not catch, are not modelled.
- TCP poses are `seq<real>` and JavaScript numbers are `int` or `real`. No arithmetic is done on them.
- Responses only arrive for issued requests and socket events only for sockets in a matching state. The `pending…` counters and the ready-state preconditions stand for this ordering guarantee of the environment.
- A second subscription to the Observable returned by `startMonitoring()` would issue a second request. The component subscribes once, so the model issues the request when the method is called.
