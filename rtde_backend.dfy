/** The backend's `main.py`: the monitoring loop that turns robot samples into
    `latest_state`, and the `/start`, `/stop` and `/state` handlers.

    The loop runs on its own thread in the source.  Here every pass of the
    `while` loop is driven by one `Observation`: what that pass saw of the stop
    event (which another thread may set), of the RTDE connection, and what
    `receive()` returned. */
module RtdeBackend {
  import opened Common

  /** A Python value of a sample's attribute; `PyNone` is `None`. */
  datatype PyValue<V> = PyNone | PyObj(obj: V)

  /** The attributes of one received state object. */
  type Sample<V> = map<string, PyValue<V>>

  /** The keys of `previous_state`, in dictionary order. */
  const MonitoredFields: seq<string> := ["runtime_state", "safety_status", "actual_TCP_pose", "actual_q"]

  /** `previous_state` as the loop creates it: every monitored field `None`. */
  function InitialPrevious<V>(): (p: map<string, PyValue<V>>)
    ensures p.Keys == set f | f in MonitoredFields
    ensures forall f :: f in p ==> p[f] == PyNone
  {
    map f | f in MonitoredFields :: PyNone
  }

  /** `getattr(state, field, None)` */
  function GetAttr<V>(sample: Sample<V>, field: string): PyValue<V> {
    if field in sample then sample[field] else PyNone
  }

  /** What one pass of the loop computes in `updates`: each monitored field whose
      current value differs from the one remembered in `previous`. */
  function Changes<V(==)>(previous: map<string, PyValue<V>>, sample: Sample<V>): map<string, PyValue<V>>
    requires forall f :: f in MonitoredFields ==> f in previous
  {
    map f | f in MonitoredFields && GetAttr(sample, f) != previous[f] :: GetAttr(sample, f)
  }

  /** `previous_state` after one pass: every monitored field holds the sample's value. */
  function Remembered<V>(previous: map<string, PyValue<V>>, sample: Sample<V>): map<string, PyValue<V>> {
    map f | f in previous :: if f in MonitoredFields then GetAttr(sample, f) else previous[f]
  }

  /** The `for field in previous_state.keys()` loop. */
  method DiffFields<V(==)>(previous: map<string, PyValue<V>>, sample: Sample<V>)
    returns (updates: map<string, PyValue<V>>, next: map<string, PyValue<V>>)
    requires forall f :: f in MonitoredFields ==> f in previous
    ensures updates == Changes(previous, sample)
    ensures next == Remembered(previous, sample)
    // exactly the changed fields are reported, with their new values
    ensures forall f :: f in updates <==> f in MonitoredFields && GetAttr(sample, f) != previous[f]
    ensures forall f :: f in updates ==> updates[f] == GetAttr(sample, f)
    // afterwards every monitored field remembers the sample's value (None if the attribute is missing)
    ensures next.Keys == previous.Keys
    ensures forall f :: f in MonitoredFields ==> next[f] == GetAttr(sample, f)
  {
    updates, next := map[], previous;
    for i := 0 to |MonitoredFields|
      invariant next.Keys == previous.Keys
      invariant forall f :: f in updates <==>
                  f in MonitoredFields[..i] && GetAttr(sample, f) != previous[f]
      invariant forall f :: f in updates ==> updates[f] == GetAttr(sample, f)
      invariant forall f :: f in next ==>
                  next[f] == if f in MonitoredFields[..i] then GetAttr(sample, f) else previous[f]
    {
      var field := MonitoredFields[i];
      var current := GetAttr(sample, field);
      assert MonitoredFields[..i + 1] == MonitoredFields[..i] + [field];
      if current != next[field] {
        updates := updates[field := current];
        next := next[field := current];
      }
    }
    assert MonitoredFields[..|MonitoredFields|] == MonitoredFields;
  }

  /** `if updates: latest_state.update(updates)` */
  function Merge<V>(latest: map<string, PyValue<V>>, updates: map<string, PyValue<V>>): (r: map<string, PyValue<V>>)
    ensures r.Keys == latest.Keys + updates.Keys
    ensures forall f :: f in updates ==> r[f] == updates[f]
    ensures forall f :: f in latest && f !in updates ==> r[f] == latest[f]
  {
    if updates == map[] then latest else latest + updates
  }

  /** What one pass of the loop saw.  `raised` says that the connector raised
      an exception while the connection was checked or a sample received. */
  datatype Observation<V> = Observation(stopSet: bool, raised: bool, connected: bool, received: Option<Sample<V>>)

  /** Why the loop ended.  `ExceptionCaught` is the `except` clauses, which
      log and leave the function.  `OutOfObservations` only means that the
      finite sequence given to the model ran out; the source would keep looping. */
  datatype Exit = StopRequested | ExceptionCaught | ConnectionClosed | NothingReceived | OutOfObservations

  /** The exit a pass takes before processing a sample, if any, in the source's order. */
  function ExitOf<V>(o: Observation<V>): Option<Exit> {
    if o.stopSet then Some(StopRequested)
    else if o.raised then Some(ExceptionCaught)
    else if !o.connected then Some(ConnectionClosed)
    else if o.received.None? then Some(NothingReceived)
    else None
  }

  datatype Run<V> = Run(latest: map<string, PyValue<V>>, exit: Exit, passes: nat)

  /** The whole `while` loop over a sequence of observations, as a function of the
      state it starts from; `passes` counts the samples that were processed. */
  function Monitor<V(==)>(previous: map<string, PyValue<V>>, latest: map<string, PyValue<V>>,
                                observations: seq<Observation<V>>): Run<V>
    requires forall f :: f in MonitoredFields ==> f in previous
    decreases |observations|
  {
    if observations == [] then Run(latest, OutOfObservations, 0)
    else match ExitOf(observations[0])
      case Some(e) => Run(latest, e, 0)
      case None =>
        var sample := observations[0].received.value;
        var r := Monitor(Remembered(previous, sample), Merge(latest, Changes(previous, sample)), observations[1..]);
        r.(passes := r.passes + 1)
  }

  /** Only monitored field names ever become keys of `latest_state`. */
  lemma {:induction false} MonitorKeepsKeys<V>(previous: map<string, PyValue<V>>, latest: map<string, PyValue<V>>,
                                                   observations: seq<Observation<V>>)
    requires forall f :: f in MonitoredFields ==> f in previous
    requires forall f :: f in latest ==> f in MonitoredFields
    ensures forall f :: f in Monitor(previous, latest, observations).latest ==> f in MonitoredFields
    decreases |observations|
  {
    if observations != [] && ExitOf(observations[0]).None? {
      var sample := observations[0].received.value;
      MonitorKeepsKeys(Remembered(previous, sample), Merge(latest, Changes(previous, sample)), observations[1..]);
    }
  }

  /** The loop processes every sample before the first pass that exits, and
      ends for that pass's reason. */
  lemma {:induction false} MonitorExitsAtFirstExit<V>(previous: map<string, PyValue<V>>,
                                                          latest: map<string, PyValue<V>>,
                                                          observations: seq<Observation<V>>, k: nat)
    requires forall f :: f in MonitoredFields ==> f in previous
    requires k < |observations| && ExitOf(observations[k]).Some?
    requires forall j :: 0 <= j < k ==> ExitOf(observations[j]).None?
    ensures Monitor(previous, latest, observations).exit == ExitOf(observations[k]).value
    ensures Monitor(previous, latest, observations).passes == k
    decreases k
  {
    if k > 0 {
      var sample := observations[0].received.value;
      assert forall j :: 0 <= j < k - 1 ==> observations[1..][j] == observations[j + 1];
      MonitorExitsAtFirstExit(Remembered(previous, sample), Merge(latest, Changes(previous, sample)),
                              observations[1..], k - 1);
    }
  }

  /** A field whose value does not change is never reported again: once
      remembered, the same sample produces no updates. */
  lemma RepeatedSampleChangesNothing<V>(previous: map<string, PyValue<V>>, sample: Sample<V>)
    requires forall f :: f in MonitoredFields ==> f in previous
    ensures Changes(Remembered(previous, sample), sample) == map[]
  {
  }

  /** The module-level state of the FastAPI application. */
  class Server<V(==)> {
    var stopSet: bool                                 // stop_event.is_set()
    var connected: bool                               // rtde_connect is not None
    var monitorThreads: nat                           // monitor threads started so far
    var latestState: map<string, PyValue<V>>          // latest_state

    ghost predicate Valid()
      reads this
    {
      forall f :: f in latestState ==> f in MonitoredFields
    }

    /** Module import: no connection, empty state, the event not set. */
    constructor()
      ensures Valid()
      ensures !stopSet && !connected && monitorThreads == 0 && latestState == map[]
    {
      stopSet, connected, monitorThreads, latestState := false, false, 0, map[];
    }

    /** `POST /start`: clear the stop event, open a connection and start one
        more monitor thread.  Nothing stops an earlier thread first. */
    method StartMonitoring() returns (message: string)
      requires Valid()
      modifies this
      ensures Valid()
      ensures !stopSet && connected && monitorThreads == old(monitorThreads) + 1
      ensures latestState == old(latestState)
      ensures message == "Started monitoring runtime state"
    {
      stopSet := false;
      connected := true;
      monitorThreads := monitorThreads + 1;
      message := "Started monitoring runtime state";
    }

    /** `POST /stop`: set the stop event and drop the connection; `latest_state`
        is kept, so `/state` goes on returning the last values. */
    method StopMonitoring() returns (message: string)
      requires Valid()
      modifies this
      ensures Valid()
      ensures stopSet && !connected
      ensures monitorThreads == old(monitorThreads) && latestState == old(latestState)
      ensures message == "Stopped monitoring runtime state"
    {
      stopSet := true;
      if connected {
        connected := false;
      }
      message := "Stopped monitoring runtime state";
    }

    /** `GET /state` */
    method GetLatestState() returns (state: map<string, PyValue<V>>)
      requires Valid()
      ensures state == latestState
      ensures forall f :: f in state ==> f in MonitoredFields
    {
      state := latestState;
    }

    /** `monitor_runtime_state`, run over the passes in `observations`. */
    method MonitorRuntimeState(observations: seq<Observation<V>>) returns (exit: Exit, passes: nat)
      requires Valid()
      modifies this`latestState
      ensures Valid()
      ensures Run(latestState, exit, passes) == Monitor(InitialPrevious(), old(latestState), observations)
    {
      var previous: map<string, PyValue<V>> := InitialPrevious();
      var i := 0;
      exit := OutOfObservations;
      while i < |observations|
        invariant 0 <= i <= |observations|
        invariant forall f :: f in MonitoredFields ==> f in previous
        invariant Valid()
        invariant var r := Monitor(previous, latestState, observations[i..]);
                  Monitor(InitialPrevious(), old(latestState), observations) == r.(passes := r.passes + i)
      {
        var o := observations[i];
        if o.stopSet {
          exit := StopRequested;
          break;
        }
        if o.raised {
          exit := ExceptionCaught;
          break;
        }
        if !o.connected {
          exit := ConnectionClosed;
          break;
        }
        if o.received.None? {
          exit := NothingReceived;
          break;
        }
        var updates, next := DiffFields(previous, o.received.value);
        assert observations[i..][1..] == observations[i + 1..];
        previous := next;
        if updates != map[] {
          latestState := Merge(latestState, updates);
        }
        i := i + 1;
      }
      passes := i;
    }
  }
}
