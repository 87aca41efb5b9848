/** `BackendService` of the frontend: one WebSocket push channel whose
    messages land in a last-value data slot, a one-shot random-number request
    with its own slot, and a fire-and-forget digital-output write.

    Socket events (open, close, message) and the random-number response are
    explicit calls.  Every socket the service creates stays in `sockets`, with
    its ready state, because a replaced socket keeps its handlers. */
module BackendClient {
  import opened Common

  /** `WebSocket.readyState` */
  datatype ReadyState = Connecting | Open | Closing | Closed

  datatype Socket = Socket(url: string, readyState: ReadyState)

  /** `readyState` after `close()`, as the WebSocket interface of the HTML
      standard defines it: a socket that is connecting or open starts closing,
      one that is closing or closed is left alone. */
  function AfterClose(s: ReadyState): (r: ReadyState)
    ensures r != Connecting && r != Open
    ensures s == Closing || s == Closed ==> r == s
  {
    if s == Connecting || s == Open then Closing else s
  }

  /** `this.protocol + url + '/ws'` */
  function SocketUrl(url: string): (r: string)
    ensures |r| == |url| + 8
    ensures r[..5] == "ws://" && r[5..|r| - 3] == url && r[|r| - 3..] == "/ws"
  {
    var r := "ws://" + url + "/ws";
    assert r == "ws://" + (url + "/ws");
    r
  }

  /** `'http://' + url + '/random-number'` */
  function RandomNumberUrl(url: string): (r: string)
    ensures |r| == |url| + 21
    ensures r[..7] == "http://" && r[7..|r| - 14] == url && r[|r| - 14..] == "/random-number"
  {
    var r := "http://" + url + "/random-number";
    assert r == "http://" + (url + "/random-number");
    r
  }

  /** `'http://' + url + '/set-digital-output'` */
  function DigitalOutputUrl(url: string): (r: string)
    ensures |r| == |url| + 26
    ensures r[..7] == "http://" && r[7..|r| - 19] == url && r[|r| - 19..] == "/set-digital-output"
  {
    var r := "http://" + url + "/set-digital-output";
    assert r == "http://" + (url + "/set-digital-output");
    r
  }

  /** The socket and the two REST URLs never coincide, whatever the hosts, and
      each one determines the host it was built from. */
  lemma BackendUrlsDistinct(a: string, b: string)
    ensures SocketUrl(a) != RandomNumberUrl(b) && SocketUrl(a) != DigitalOutputUrl(b)
    ensures RandomNumberUrl(a) != DigitalOutputUrl(b)
    ensures SocketUrl(a) == SocketUrl(b) <==> a == b
    ensures RandomNumberUrl(a) == RandomNumberUrl(b) <==> a == b
    ensures DigitalOutputUrl(a) == DigitalOutputUrl(b) <==> a == b
  {
    var ws, random, output := SocketUrl(a), RandomNumberUrl(b), DigitalOutputUrl(b);
    assert ws[0] == 'w' && random[0] == 'h' && output[0] == 'h';
    var randomA := RandomNumberUrl(a);
    assert randomA[|randomA| - 1] == 'r' && output[|output| - 1] == 't';
  }

  /** `{ digital_output: digitalOutput, value: value, offset: offset }` */
  function DigitalOutputBody(digitalOutput: int, value: int, offset: int): (body: Json)
    ensures body.JObject? && body.fields.Keys == {"digital_output", "value", "offset"}
    ensures body.fields["digital_output"] == JNumber(digitalOutput as real)
    ensures body.fields["value"] == JNumber(value as real)
    ensures body.fields["offset"] == JNumber(offset as real)
  {
    JObject(map["digital_output" := JNumber(digitalOutput as real),
                "value" := JNumber(value as real),
                "offset" := JNumber(offset as real)])
  }

  class BackendService {
    var sockets: seq<Socket>       // every socket created, oldest first
    var socket: Option<nat>        // the socket the `socket` field holds, as an index into `sockets`
    var data: Json                 // dataSubject
    var randomNumber: Option<real> // randomNumberSubject
    var requests: seq<Request>     // every HTTP request issued, in order
    var pendingRandom: nat         // random-number requests not yet answered

    /** The `socket` field holds the newest socket, if any was created. */
    ghost predicate Valid()
      reads this
    {
      socket == if sockets == [] then None else Some(|sockets| - 1)
    }

    /** Whether the held socket is OPEN. */
    predicate SocketOpen()
      requires Valid()
      reads this
    {
      socket.Some? && sockets[socket.value].readyState == Open
    }

    constructor()
      ensures Valid()
      ensures sockets == [] && socket == None && data == JNull && randomNumber == None
      ensures requests == [] && pendingRandom == 0
    {
      sockets, socket, data, randomNumber := [], None, JNull, None;
      requests, pendingRandom := [], 0;
    }

    /** `connect(url)`: a new socket unless the held one is OPEN.  A socket
        that is still CONNECTING is replaced too. */
    method Connect(url: string)
      requires Valid()
      modifies this`sockets, this`socket
      ensures Valid()
      ensures old(SocketOpen()) ==> sockets == old(sockets) && socket == old(socket)
      ensures !old(SocketOpen()) ==> sockets == old(sockets) + [Socket(SocketUrl(url), Connecting)]
    {
      if socket.None? || sockets[socket.value].readyState != Open {
        sockets := sockets + [Socket(SocketUrl(url), Connecting)];
        socket := Some(|sockets| - 1);
      }
    }

    /** `disconnect()`: close the held socket and reset the data slot; the
        field keeps the closed socket. */
    method Disconnect()
      requires Valid()
      modifies this`sockets, this`data
      ensures Valid()
      ensures socket.None? ==> sockets == old(sockets) && data == old(data)
      ensures socket.Some? ==> && sockets == old(sockets)[socket.value := old(sockets)[socket.value].(readyState := AfterClose(old(sockets)[socket.value].readyState))]
                               && data == JNull
    {
      if socket.Some? {
        var k := socket.value;
        sockets := sockets[k := sockets[k].(readyState := AfterClose(sockets[k].readyState))];
        data := JNull;
      }
    }

    /** The browser reports that socket `k` opened. */
    method OnOpen(k: nat)
      requires Valid() && k < |sockets| && sockets[k].readyState == Connecting
      modifies this`sockets
      ensures Valid()
      ensures sockets == old(sockets)[k := old(sockets)[k].(readyState := Open)]
    {
      sockets := sockets[k := sockets[k].(readyState := Open)];
    }

    /** The browser reports that socket `k` closed (or failed to open). */
    method OnClose(k: nat)
      requires Valid() && k < |sockets| && sockets[k].readyState != Closed
      modifies this`sockets
      ensures Valid()
      ensures sockets == old(sockets)[k := old(sockets)[k].(readyState := Closed)]
    {
      sockets := sockets[k := sockets[k].(readyState := Closed)];
    }

    /** The `onmessage` handler of socket `k`, with `JSON.parse(event.data)`
        already applied: the data slot holds the latest payload only. */
    method OnMessage(k: nat, payload: Json)
      requires Valid() && k < |sockets| && sockets[k].readyState == Open
      modifies this`data
      ensures data == payload
    {
      data := payload;
    }

    /** `fetchRandomNumber(url)`: `GET <url>/random-number`. */
    method FetchRandomNumber(url: string)
      modifies this`requests, this`pendingRandom
      ensures requests == old(requests) + [Get(RandomNumberUrl(url))]
      ensures pendingRandom == old(pendingRandom) + 1
    {
      requests := requests + [Get(RandomNumberUrl(url))];
      pendingRandom := pendingRandom + 1;
    }

    /** The random-number response: a body fills the slot; there is no error
        handler, so a failure leaves the slot as it was. */
    method OnRandomNumberResult(outcome: Outcome<real>)
      requires pendingRandom > 0
      modifies this`pendingRandom, this`randomNumber
      ensures pendingRandom == old(pendingRandom) - 1
      ensures randomNumber == if outcome.Ok? then Some(outcome.body) else old(randomNumber)
    {
      pendingRandom := pendingRandom - 1;
      if outcome.Ok? {
        randomNumber := Some(outcome.body);
      }
    }

    /** `setDigitalOutput(url, digitalOutput, value, offset = 0)`: one POST,
        whose outcome nobody observes. */
    method SetDigitalOutput(url: string, digitalOutput: int, value: int, offset: int := 0)
      modifies this`requests
      ensures requests == old(requests) + [Post(DigitalOutputUrl(url), DigitalOutputBody(digitalOutput, value, offset))]
    {
      requests := requests + [Post(DigitalOutputUrl(url), DigitalOutputBody(digitalOutput, value, offset))];
    }
  }
}
