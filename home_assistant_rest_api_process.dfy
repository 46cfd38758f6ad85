/** The REST streaming session run as its own process: it opens an HTTP
    client (no authentication step), snapshots the lights, POSTs every queued
    sample as a turn_on for all lights and, when killed, POSTs the snapshot
    back and closes the client. The requests issued are an outbox, in order;
    the server's answers are given as parameters. */
module RestApiProcess {
  import opened Common
  import opened HomeAssistant
  import opened HttpRequests

  /** `"http://" + ip + ":" + port + "/api"`. */
  function RestProcessUrl(ip: string, port: string): (url: string)
    ensures |url| == |ip| + |port| + 12
    ensures StartsWith(url, "http://")
    ensures url[7..7 + |ip|] == ip && url[7 + |ip|] == ':'
    ensures url[8 + |ip|..|url| - 4] == port
    ensures url[|url| - 4..] == "/api"
  {
    "http://" + ip + ":" + port + "/api"
  }

  /** `"Bearer " + key`, the Authorization header. */
  function BearerHeader(key: string): (h: string)
    ensures StartsWith(h, "Bearer ") && h[7..] == key
  {
    "Bearer " + key
  }

  /** What a REST session issues once connected: the state request; then,
      when every light could be snapshotted, the services request and what
      the push loop POSTs. */
  function RestSessionRequests(keys: seq<string>, result: seq<Entity>, polls: seq<Poll<Sample>>, killDuring: nat): seq<HttpRequest>
  {
    var snap := StoreSnapshots(keys, LightEntities(result));
    if snap.None? then [Get(States)]
    else
      var sent := Received(polls[..LoopIterations(|polls|, killDuring)]);
      [Get(States), Get(Services)] +
      PushRequests(sent, killDuring < |polls|, LightIds(result), RestoreCommands(snap.value))
  }

  class HomeAssistantRestApiProcess {
    const baseUrl: string
    const authorization: string
    /** The attributes copied into each light's snapshot. */
    const attributeKeys: seq<string>
    var connectionStatus: bool
    /** Whether the HTTP client is open. */
    var clientOpen: bool
    /** `__initial_light_states`; None until it is stored. */
    var initialLightStates: Option<Dict<string, Snapshot>>
    /** `__lights`; None until it is stored. */
    var lights: Option<seq<string>>
    /** Every request issued, in order. */
    var outbox: seq<HttpRequest>
    var loopStopped: bool

    /** A process before `run`: disconnected, nothing issued. */
    constructor(ip: string, port: string, key: string)
      ensures baseUrl == RestProcessUrl(ip, port) && authorization == BearerHeader(key)
      ensures attributeKeys == AttributeKeys
      ensures !connectionStatus && !clientOpen && outbox == []
      ensures initialLightStates.None? && lights.None? && !loopStopped
    {
      baseUrl, authorization, attributeKeys := RestProcessUrl(ip, port), BearerHeader(key), AttributeKeys;
      connectionStatus, clientOpen, outbox := false, false, [];
      initialLightStates, lights := None, None;
      loopStopped := false;
    }

    /** `__connect`: the client is created and the status set to true, with
        no check of the server or the token. */
    method Connect()
      modifies this`clientOpen, this`connectionStatus
      ensures clientOpen && connectionStatus
    {
      clientOpen := true;
      connectionStatus := true;
    }

    /** `__store_initial_light_states`: one `d[entity_id] = record` per state,
        in order; false where a record cannot be built (the `KeyError`), and
        then nothing is stored. */
    method StoreInitialLightStates(states: seq<Entity>) returns (ok: bool)
      modifies this`initialLightStates
      ensures ok <==> StoreSnapshots(attributeKeys, states).Some?
      ensures initialLightStates == if ok then StoreSnapshots(attributeKeys, states) else old(initialLightStates)
    {
      var d: Dict<string, Snapshot> := [];
      var i := 0;
      while i < |states|
        invariant 0 <= i <= |states|
        invariant StoreSnapshots(attributeKeys, states[..i]) == Some(d)
      {
        assert states[..i + 1][..i] == states[..i];
        var record := Capture(attributeKeys, states[i]);
        if record.None? {
          MissingKeyFails(attributeKeys, states, i);
          return false;
        }
        d := Put(d, states[i].entityId, record.value);
        i := i + 1;
      }
      assert states[..i] == states;
      initialLightStates := Some(d);
      ok := true;
    }

    /** `__fetch_light_states`: GET /states, keep the entities whose id
        starts with "light", snapshot them and store their ids. */
    method FetchLightStates(result: seq<Entity>) returns (ok: bool)
      modifies this`outbox, this`initialLightStates, this`lights
      ensures outbox == old(outbox) + [Get(States)]
      ensures ok <==> StoreSnapshots(attributeKeys, LightEntities(result)).Some?
      ensures ok ==> initialLightStates == StoreSnapshots(attributeKeys, LightEntities(result)) &&
                     lights == Some(LightIds(result))
      ensures !ok ==> initialLightStates == old(initialLightStates) && lights == old(lights)
    {
      outbox := outbox + [Get(States)];
      var states := LightEntities(result);
      ok := StoreInitialLightStates(states);
      if ok {
        lights := Some(EntityIds(states));
      }
    }

    /** `__fetch_light_actions`: GET /services; the answer is discarded. */
    method FetchLightActions()
      modifies this`outbox
      ensures outbox == old(outbox) + [Get(Services)]
    {
      outbox := outbox + [Get(Services)];
    }

    /** `__send_light_state`: POST turn_on for the whole light list with the
        sample's brightness and colour. A timeout or protocol error of the
        request is caught and only printed, so it changes nothing here. */
    method SendLightState(s: Sample)
      requires lights.Some?
      modifies this`outbox
      ensures outbox == old(outbox) + [StreamRequest(s, lights.value)]
    {
      outbox := outbox + [Post(LightTurnOnPath, Stream(lights.value, s.brightness, s.rgb))];
    }

    /** `__recover_light_state`: builds one POST per "off" or "on" entry of
        the snapshot, in order, then issues them all together. A timeout or
        protocol error is caught; the restore is reported either way. */
    method RecoverLightState()
      requires initialLightStates.Some?
      modifies this`outbox
      ensures outbox == old(outbox) + RestoreRequests(RestoreCommands(initialLightStates.value))
    {
      var items := initialLightStates.value;
      var messages: seq<HttpRequest> := [];
      var i := 0;
      while i < |items|
        invariant 0 <= i <= |items|
        invariant messages == RestoreRequests(RestoreCommands(items[..i]))
        invariant outbox == old(outbox)
      {
        RestoreRequestStep(items, i);
        var entry := items[i];
        if entry.1.state == "off" {
          messages := messages + [Post(LightTurnOffPath, EntityOnly(entry.0))];
        } else if entry.1.state == "on" {
          messages := messages + [Post(LightTurnOnPath, ReplayOne(entry.0, entry.1.attributes))];
        }
        i := i + 1;
      }
      assert items[..i] == items;
      outbox := outbox + messages;
    }

    /** `__close_connection`: the client is closed and the status set false. */
    method CloseConnection()
      modifies this`clientOpen, this`connectionStatus
      ensures !clientOpen && !connectionStatus
    {
      clientOpen := false;
      connectionStatus := false;
    }

    /** `kill`: restore first, then close, then stop the event loop. */
    method Kill()
      requires initialLightStates.Some?
      modifies this`outbox, this`clientOpen, this`connectionStatus, this`loopStopped
      ensures outbox == old(outbox) + RestoreRequests(RestoreCommands(initialLightStates.value))
      ensures !clientOpen && !connectionStatus && loopStopped
    {
      RecoverLightState();
      CloseConnection();
      loopStopped := true;
    }

    /** `__push_states`: each iteration takes one poll of the queue (a
        five-second timeout) and, for a sample, POSTs it; a timeout only loops
        again. After the iteration the loop ends if the connection status is
        false. The session is killed during iteration `killDuring` (never,
        when that is past the polls), after that iteration's sample. */
    method PushStates(polls: seq<Poll<Sample>>, killDuring: nat) returns (iterations: nat)
      requires connectionStatus && lights.Some? && initialLightStates.Some?
      modifies this`outbox, this`clientOpen, this`connectionStatus, this`loopStopped
      ensures iterations == LoopIterations(|polls|, killDuring)
      ensures connectionStatus <==> killDuring >= |polls|
      ensures outbox == old(outbox) + PushRequests(Received(polls[..iterations]), killDuring < |polls|,
                                                   lights.value, RestoreCommands(initialLightStates.value))
    {
      var i := 0;
      ghost var sent: seq<Sample> := [];
      while i < |polls|
        invariant 0 <= i <= |polls| && i <= killDuring
        invariant connectionStatus
        invariant sent == Received(polls[..i])
        invariant outbox == old(outbox) + StreamRequests(sent, lights.value)
      {
        ReceivedSnoc(polls, i);
        var stop := Iterate(polls[i], i == killDuring, old(outbox), sent);
        sent := sent + Payload(polls[i]);
        i := i + 1;
        if stop {
          return i;
        }
      }
      iterations := i;
    }

    /** One iteration of `__push_states` on the poll `p`: the POST of its
        sample, the kill when it comes now, then the status check. The
        outbox so far is `base` followed by the POSTs of the samples `prev`. */
    method Iterate(p: Poll<Sample>, killNow: bool, ghost base: seq<HttpRequest>, ghost prev: seq<Sample>)
      returns (stop: bool)
      requires connectionStatus && lights.Some? && initialLightStates.Some?
      requires outbox == base + StreamRequests(prev, lights.value)
      modifies this`outbox, this`clientOpen, this`connectionStatus, this`loopStopped
      ensures stop == killNow && connectionStatus == !killNow
      ensures outbox == base + PushRequests(prev + Payload(p), killNow, lights.value,
                                            RestoreCommands(initialLightStates.value))
    {
      ghost var before := outbox;
      Dispatch(p);
      ghost var mid := outbox;
      RestStreamStep(base, prev, Payload(p), lights.value, before, mid);
      stop := KillPoint(killNow);
      RestPushStep(base, prev + Payload(p), killNow, lights.value, RestoreCommands(initialLightStates.value), mid, outbox);
    }

    /** The send half of one iteration: a sample is POSTed, a timeout POSTs
        nothing. */
    method Dispatch(p: Poll<Sample>)
      requires lights.Some?
      modifies this`outbox
      ensures outbox == old(outbox) + StreamRequests(Payload(p), lights.value)
    {
      if p.Got? {
        SendLightState(p.value);
        StreamRequestsSingle(p.value, lights.value);
      }
    }

    /** The end of one iteration: the kill, when it comes during this
        iteration, then the check of the connection status that ends the
        loop. */
    method KillPoint(killNow: bool) returns (stop: bool)
      requires connectionStatus && initialLightStates.Some?
      modifies this`outbox, this`clientOpen, this`connectionStatus, this`loopStopped
      ensures stop == killNow && connectionStatus == !killNow
      ensures killNow ==> outbox == old(outbox) + RestoreRequests(RestoreCommands(initialLightStates.value))
      ensures !killNow ==> outbox == old(outbox)
    {
      if killNow {
        Kill();
      }
      stop := !connectionStatus;
    }

    /** `run`: connect (always succeeds), fetch the states (a failed
        snapshot ends it there) and the actions, then stream until killed. */
    method Run(result: seq<Entity>, polls: seq<Poll<Sample>>, killDuring: nat)
      modifies this`outbox, this`clientOpen, this`connectionStatus, this`loopStopped,
               this`initialLightStates, this`lights
      ensures outbox == old(outbox) + RestSessionRequests(attributeKeys, result, polls, killDuring)
    {
      Connect();
      ghost var base := outbox;
      var ok := FetchLightStates(result);
      if !ok {
        return;
      }
      FetchLightActions();
      ghost var head := [Get(States), Get(Services)];
      assert outbox == base + head;
      ghost var cmds := RestoreCommands(initialLightStates.value);
      var n := PushStates(polls, killDuring);
      ghost var push := PushRequests(Received(polls[..n]), killDuring < |polls|, lights.value, cmds);
      assert outbox == base + head + push;
      assert base + head + push == base + (head + push);
    }
  }
}
